/** The LittleFS backend: persistent queues kept in header and data files. */
module LfsBackend {
  import opened Common
  import opened Slots
  import opened LfsPaths
  import opened LfsLayout
  import opened LfsFiles
  import opened LfsQueue

  /** The mounted file system. Each method is one open, seek, transfer, close sequence. */
  class FileSystem {
    var files: Files

    constructor (files: Files)
      ensures this.files == files
    {
      this.files := files;
    }

    method WriteAt(path: string, pos: nat, data: seq<Byte>) returns (ret: int)
      modifies this
      ensures ret == |data| && files == Written(old(files), path, pos, data)
    {
      files := Written(files, path, pos, data);
      ret := |data|;
    }

    method ReadAt(path: string, pos: nat, len: nat) returns (ret: int, data: seq<Byte>)
      ensures path !in files ==> ret == -ENOENT && data == []
      ensures path in files ==>
                var f := files[path];
                ret == |data| && data == f[Min(pos, |f|)..Min(pos + len, |f|)]
    {
      if path !in files {
        return -ENOENT, [];
      }
      var f := files[path];
      data := f[Min(pos, |f|)..Min(pos + len, |f|)];
      ret := |data|;
    }

    method Unlink(path: string) returns (ret: int)
      modifies this
      ensures ret == (if path in old(files) then 0 else -ENOENT) && files == old(files) - {path}
    {
      ret := if path in files then 0 else -ENOENT;
      files := files - {path};
    }
  }

  /** Everything found is as it was, and each of `heads` is there, new ones with the content `zero`. */
  ghost predicate Grown(start: Files, files: Files, heads: seq<string>, zero: seq<Byte>) {
    && (forall p :: p in start ==> p in files && files[p] == start[p])
    && (forall p :: p in files ==> p in start || p in heads)
    && forall t :: 0 <= t < |heads| ==> heads[t] in files && (heads[t] !in start ==> files[heads[t]] == zero)
  }

  lemma GrownNext(start: Files, files: Files, heads: seq<string>, zero: seq<Byte>, path: string)
    requires Grown(start, files, heads, zero) && path !in heads
    ensures path in files <==> path in start
    ensures path in start ==> Grown(start, files, heads + [path], zero)
    ensures path !in start ==> Grown(start, files[path := zero], heads + [path], zero)
  {
  }

  class LfsBackend {
    const fs: FileSystem
    const g: Geometry
    const types: seq<DataType>

    ghost predicate Configured()
    {
      GeometryOk(g) && Registered(types)
    }

    ghost predicate Valid()
      reads this, fs
    {
      Configured() && forall t :: 0 <= t < |types| ==> Consistent(fs.files, g, types[t])
    }

    ghost function QueueOf(ty: DataType): seq<Record>
      requires Valid() && ty in types
      reads this, fs
    {
      Queue(fs.files, g, ty)
    }

    ghost function Queues(): (qs: seq<seq<Record>>)
      requires Valid()
      reads this, fs
      ensures |qs| == |types|
    {
      seq(|types|, t requires Valid() && 0 <= t < |types| reads this, fs => QueueOf(types[t]))
    }

    constructor (fs: FileSystem, g: Geometry, types: seq<DataType>)
      requires GeometryOk(g) && Registered(types)
      ensures Configured() && this.fs == fs && this.g == g && this.types == types
    {
      this.fs, this.g, this.types := fs, g, types;
    }

    method ReadHeader(ty: DataType) returns (ret: int, header: Header)
      requires Configured()
      requires HeaderPath(g.mount, ty.name) in fs.files ==> |fs.files[HeaderPath(g.mount, ty.name)]| == 8
      ensures !Fits(g, HeaderPath(g.mount, ty.name)) ==> ret == -ENAMETOOLONG
      ensures Fits(g, HeaderPath(g.mount, ty.name)) && HeaderPath(g.mount, ty.name) !in fs.files ==> ret == -ENOENT
      ensures HeaderPresent(fs.files, g, ty) ==> ret == 0 && header == HeaderOf(fs.files, g, ty)
    {
      header := Header(0, 0);
      var path := HeaderPath(g.mount, ty.name);
      if !Fits(g, path) {
        return -ENAMETOOLONG, header;
      }
      var n, bytes := fs.ReadAt(path, 0, 8);
      if n < 0 {
        return n, header;
      }
      assert bytes == fs.files[path];
      return 0, DecodeHeader(bytes);
    }

    method WriteHeader(ty: DataType, header: Header) returns (ret: int)
      requires Configured()
      modifies fs
      ensures !Fits(g, HeaderPath(g.mount, ty.name)) ==> ret == -ENAMETOOLONG && fs.files == old(fs.files)
      ensures Fits(g, HeaderPath(g.mount, ty.name)) ==>
                ret == 0 && fs.files == WithHeader(old(fs.files), g, ty, header)
    {
      var path := HeaderPath(g.mount, ty.name);
      if !Fits(g, path) {
        return -ENAMETOOLONG;
      }
      var n := fs.WriteAt(path, 0, EncodeHeader(header));
      return 0;
    }

    /** A header write, seen by the other types. */
    method CommitHeader(ty: DataType, header: Header) returns (ret: int)
      requires Configured() && ty in types
      requires HeaderPresent(fs.files, g, ty)
      requires forall other :: other in types && other != ty ==> Consistent(fs.files, g, other)
      modifies fs
      ensures ret == 0 && fs.files == WithHeader(old(fs.files), g, ty, header)
      ensures forall other :: other in types && other != ty ==>
                && Consistent(fs.files, g, other)
                && Queue(fs.files, g, other) == Queue(old(fs.files), g, other)
    {
      ghost var before := fs.files;
      ret := WriteHeader(ty, header);
      forall other | other in types && other != ty
        ensures Consistent(fs.files, g, other) && Queue(fs.files, g, other) == Queue(before, g, other)
      {
        DistinctNames(other, ty);
        HeaderWriteOfOther(before, g, ty, header, other);
      }
    }

    /** `get_entries_per_block`. */
    method GetEntriesPerBlock(ty: DataType) returns (ret: int, entries: nat)
      requires ty.size > 0
      ensures ret == if ty.size <= g.block then 0 else -EFBIG
      ensures ty.size <= g.block ==> 0 < entries == g.block / ty.size
    {
      entries := g.block / ty.size;
      DivMod(g.block, ty.size);
      if ty.size <= g.block {
        FileFitsBlock(0, 1, ty.size, g.block);
      } else {
        MultipleSize(entries, ty.size);
      }
      if entries == 0 {
        return -EFBIG, entries;
      }
      return 0, entries;
    }

    /** Everything a store does before it updates the header, and what is left if it stops there. */
    method WriteRecord(ty: DataType, header: Header, data: Record) returns (ret: int)
      requires Valid() && ty in types && |data| == ty.size
      requires header == HeaderOf(fs.files, g, ty)
      modifies fs
      ensures Valid()
      ensures ty.size > g.block ==> ret == -EFBIG && fs.files == old(fs.files)
      ensures ty.size <= g.block && !Fits(g, SlotPath(g, ty, header.write)) ==>
                ret == -ENAMETOOLONG && fs.files == old(fs.files)
      ensures ty.size <= g.block && Fits(g, SlotPath(g, ty, header.write)) ==>
                ret == 0 && fs.files == AfterRecord(old(fs.files), g, ty, data)
      ensures forall other :: other in types && other != ty ==> QueueOf(other) == old(QueueOf(other))
    {
      ghost var before := fs.files;
      var err, entriesPerBlock := GetEntriesPerBlock(ty);
      if err < 0 {
        return err;
      }
      var wrappedIndex := Wrapped(header.write, g.cap);
      var fileIndex := FileIndex(entriesPerBlock, wrappedIndex);
      var writePos := Position(entriesPerBlock, wrappedIndex, g.cap, ty.size);
      var path := DataPath(g.mount, ty.name, fileIndex);
      if !Fits(g, path) {
        return -ENAMETOOLONG;
      }
      var n := fs.WriteAt(path, writePos, data);
      InterruptedStoreRecords(before, g, ty, data);
      forall other | other in types && other != ty
        ensures Consistent(fs.files, g, other) && Queue(fs.files, g, other) == Queue(before, g, other)
      {
        DistinctNames(other, ty);
        RecordWriteOfOther(before, g, ty, data, other);
      }
      return 0;
    }

    lemma DistinctNames(a: DataType, b: DataType)
      requires Configured() && a in types && b in types && a != b
      ensures a.name != b.name
    {
    }

    method Store(ty: DataType, data: Record) returns (ret: int)
      requires Valid() && ty in types && |data| == ty.size
      modifies fs
      ensures Valid()
      ensures ret == StoreResult(old(fs.files), ty)
      ensures ret != 0 ==> fs.files == old(fs.files)
      ensures ret == 0 ==> fs.files == AfterStore(old(fs.files), g, ty, data)
      ensures ret == 0 ==> HeaderOf(fs.files, g, ty) == HeaderAfterStore(HeaderOf(old(fs.files), g, ty), g.cap)
      ensures ret == 0 && SafeStore(HeaderOf(old(fs.files), g, ty)) ==>
                QueueOf(ty) == BoundedFifo.Push(old(QueueOf(ty)), data, g.cap)
      ensures forall other :: other in types && other != ty ==> QueueOf(other) == old(QueueOf(other))
      ensures AllBounded(old(fs.files), g, types) ==> AllBounded(fs.files, g, types)
    {
      hide AllBounded;
      ghost var before := fs.files;
      var header: Header;
      ret, header := ReadHeader(ty);
      if ret < 0 {
        return;
      }
      var wasFull := Distance(header.read, header.write) >= g.cap;
      ret := WriteRecord(ty, header, data);
      if ret < 0 {
        return;
      }
      var next := header.(write := Offset(header.write, 1));
      if wasFull {
        next := next.(read := Offset(next.read, 1));
      }
      ret := CommitHeader(ty, next);
      StoreOutcome(before, ty, data);
      StoreKeepsBounded(before, g, types, ty, data);
    }

    /** What the new files of a completed store mean for its own type. */
    lemma StoreOutcome(files: Files, ty: DataType, data: Record)
      requires Configured() && CanStore(files, g, ty, data)
      ensures var files2 := AfterStore(files, g, ty, data);
              && Consistent(files2, g, ty)
              && HeaderOf(files2, g, ty) == HeaderAfterStore(HeaderOf(files, g, ty), g.cap)
              && (SafeStore(HeaderOf(files, g, ty)) ==>
                    Queue(files2, g, ty) == BoundedFifo.Push(Queue(files, g, ty), data, g.cap))
    {
      StoreRecords(files, g, ty, data);
      if SafeStore(HeaderOf(files, g, ty)) {
        StoreRefines(files, g, ty, data);
      }
    }

    /** The return code of a store: a record larger than a block, or a path that does not fit. */
    ghost function StoreResult(files: Files, ty: DataType): int
      requires Configured() && ty in types && HeaderPresent(files, g, ty)
    {
      if ty.size > g.block then -EFBIG
      else if !Fits(g, SlotPath(g, ty, HeaderOf(files, g, ty).write)) then -ENAMETOOLONG
      else 0
    }

    ghost predicate SafeStore(h: Header)
      requires Configured()
    {
      WindowSafe(NextRead(h, g.cap), NextCount(h, g.cap), g.cap)
    }

    /** The record at the read counter; changes nothing, so a retrieve that stops here loses nothing. */
    method ReadRecord(ty: DataType, header: Header) returns (ret: int, data: Record)
      requires Valid() && ty in types && QueueOf(ty) != []
      requires header == HeaderOf(fs.files, g, ty)
      ensures ret == ty.size && data == QueueOf(ty)[0]
    {
      OffsetShift(header.read, 0);
      assert HasSlot(fs.files, g, ty, Offset(header.read, 0));
      data := [];
      var entriesPerBlock;
      ret, entriesPerBlock := GetEntriesPerBlock(ty);
      if ret < 0 {
        return;
      }
      var wrappedIndex := Wrapped(header.read, g.cap);
      var fileIndex := FileIndex(entriesPerBlock, wrappedIndex);
      var readPos := Position(entriesPerBlock, wrappedIndex, g.cap, ty.size);
      var path := DataPath(g.mount, ty.name, fileIndex);
      if !Fits(g, path) {
        return -ENAMETOOLONG, data;
      }
      ret, data := fs.ReadAt(path, readPos, ty.size);
    }

    /** `read_data_entry`. `buffer` is the size of the caller's buffer, `None` for a null pointer. */
    method ReadDataEntry(ty: DataType, buffer: Option<nat>, updateOffset: bool) returns (ret: int, data: Record)
      requires Valid() && ty in types
      requires buffer.Some? ==> buffer.value >= ty.size
      modifies fs
      ensures Valid()
      ensures var q := old(QueueOf(ty));
              if q == [] then ret == -EAGAIN && data == [] && fs.files == old(fs.files)
              else
                && ret == ty.size
                && data == (if buffer.Some? then q[0] else [])
                && fs.files == (if updateOffset then AfterRetrieve(old(fs.files), g, ty) else old(fs.files))
                && QueueOf(ty) == if updateOffset then q[1..] else q
      ensures forall other :: other in types && other != ty ==> QueueOf(other) == old(QueueOf(other))
      ensures AllBounded(old(fs.files), g, types) ==> AllBounded(fs.files, g, types)
    {
      hide AllBounded;
      ghost var before := fs.files;
      data := [];
      var header: Header;
      ret, header := ReadHeader(ty);
      if ret < 0 {
        return;
      }
      EqualCountersMeanEmpty(header);
      if header.read == header.write {
        return -EAGAIN, data;
      }
      var bytes;
      ret, bytes := ReadRecord(ty, header);
      if ret < 0 {
        return;
      }
      if buffer.Some? {
        data := bytes;
      }
      if updateOffset {
        var err := CommitHeader(ty, header.(read := Offset(header.read, 1)));
        RetrieveRefines(before, g, ty);
        RetrieveKeepsBounded(before, g, types, ty);
        if err < 0 {
          return err, data;
        }
      }
    }

    lemma EqualCountersMeanEmpty(h: Header)
      ensures Distance(h.read, h.write) == 0 <==> h.read == h.write
    {
    }

    method Peek(ty: DataType, buffer: Option<nat>) returns (ret: int, data: Record)
      requires Valid() && ty in types
      requires buffer.Some? ==> buffer.value >= ty.size
      modifies fs
      ensures fs.files == old(fs.files)
      ensures var q := old(QueueOf(ty));
              if q == [] then ret == -EAGAIN && data == []
              else ret == ty.size && data == (if buffer.Some? then q[0] else [])
    {
      ret, data := ReadDataEntry(ty, buffer, false);
    }

    method Retrieve(ty: DataType, buffer: Option<nat>) returns (ret: int, data: Record)
      requires Valid() && ty in types
      requires buffer.Some? ==> buffer.value >= ty.size
      modifies fs
      ensures Valid()
      ensures var q := old(QueueOf(ty));
              if q == [] then ret == -EAGAIN && data == [] && fs.files == old(fs.files)
              else
                && ret == ty.size && data == (if buffer.Some? then q[0] else [])
                && fs.files == AfterRetrieve(old(fs.files), g, ty)
                && QueueOf(ty) == q[1..]
      ensures forall other :: other in types && other != ty ==> QueueOf(other) == old(QueueOf(other))
      ensures AllBounded(old(fs.files), g, types) ==> AllBounded(fs.files, g, types)
    {
      ret, data := ReadDataEntry(ty, buffer, true);
    }

    method Count(ty: DataType) returns (ret: int)
      requires Valid() && ty in types
      ensures ret == |QueueOf(ty)|
    {
      var header: Header;
      ret, header := ReadHeader(ty);
      if ret < 0 {
        return;
      }
      return Distance(header.read, header.write);
    }

    /** Files found at start-up: a type has either no header yet or a consistent queue. */
    ghost predicate Recoverable(files: Files)
      requires Configured()
    {
      forall t :: 0 <= t < |types| && HeaderPath(g.mount, types[t].name) in files ==> Consistent(files, g, types[t])
    }

    ghost function Recovered(files: Files, t: nat): seq<Record>
      requires Configured() && Recoverable(files) && t < |types|
    {
      if HeaderPath(g.mount, types[t].name) in files then Queue(files, g, types[t]) else []
    }

    ghost predicate IsHeader(p: string)
    {
      exists t :: 0 <= t < |types| && p == HeaderPath(g.mount, types[t].name)
    }

    /** The header files of the first `i` types. */
    ghost function Headers(i: nat): (paths: seq<string>)
      requires i <= |types|
      ensures |paths| == i
    {
      seq(i, t requires 0 <= t < i => HeaderPath(g.mount, types[t].name))
    }

    lemma HeadersNext(i: nat)
      requires Configured() && i < |types|
      ensures var path := HeaderPath(g.mount, types[i].name);
              path !in Headers(i) && Headers(i + 1) == Headers(i) + [path]
    {
      if t :| 0 <= t < i && HeaderPath(g.mount, types[t].name) == HeaderPath(g.mount, types[i].name) {
        HeaderPathInjective(g.mount, types[t].name, types[i].name);
      }
    }

    lemma NewHeaderFile(files: Files, ty: DataType, h: Header)
      ensures var path := HeaderPath(g.mount, ty.name);
              path !in files ==> WithHeader(files, g, ty, h) == files[path := EncodeHeader(h)]
    {
      var path := HeaderPath(g.mount, ty.name);
      if path !in files {
        var bytes := Splice([], 0, EncodeHeader(h));
        assert bytes == bytes[0..8];
      }
    }

    lemma InitializedQueue(start: Files, files: Files, t: nat)
      requires Configured() && Recoverable(start) && t < |types|
      requires Grown(start, files, Headers(|types|), EncodeHeader(Header(0, 0)))
      requires Fits(g, HeaderPath(g.mount, types[t].name))
      ensures Consistent(files, g, types[t]) && Queue(files, g, types[t]) == Recovered(start, t)
      ensures HeaderPath(g.mount, types[t].name) !in start ==> HeaderOf(files, g, types[t]) == Header(0, 0)
    {
      assert Headers(|types|)[t] == HeaderPath(g.mount, types[t].name);
      if HeaderPath(g.mount, types[t].name) in start {
        SameQueue(start, files, g, types[t]);
      } else {
        HeaderRoundTrip(Header(0, 0), []);
        assert EncodeHeader(Header(0, 0)) + [] == EncodeHeader(Header(0, 0));
        WindowIsQueue(files, g, types[t], []);
      }
    }

    /** `init_header_files`: existing headers are kept, so stored records survive a restart. */
    method InitHeaderFiles() returns (ret: int)
      requires Configured() && Recoverable(fs.files)
      modifies fs
      ensures ret == if forall t :: 0 <= t < |types| ==> Fits(g, HeaderPath(g.mount, types[t].name)) then 0
                     else -ENAMETOOLONG
      ensures ret == 0 ==> Valid()
      ensures ret == 0 ==> forall t :: 0 <= t < |types| ==> Queues()[t] == Recovered(old(fs.files), t)
      ensures forall p :: p in old(fs.files) ==> p in fs.files && fs.files[p] == old(fs.files)[p]
      ensures forall p :: p in fs.files ==> p in old(fs.files) || IsHeader(p)
      ensures ret == 0 ==> forall t :: 0 <= t < |types| && HeaderPath(g.mount, types[t].name) !in old(fs.files) ==>
                HeaderOf(fs.files, g, types[t]) == Header(0, 0)
      ensures AllBounded(old(fs.files), g, types) ==> AllBounded(fs.files, g, types)
    {
      hide AllBounded;
      ghost var start, zero := fs.files, EncodeHeader(Header(0, 0));
      for i := 0 to |types|
        invariant Grown(start, fs.files, Headers(i), zero)
        invariant forall t :: 0 <= t < i ==> Fits(g, HeaderPath(g.mount, types[t].name))
      {
        var path := HeaderPath(g.mount, types[i].name);
        if !Fits(g, path) {
          FewerKeepBounded(start, fs.files, g, types);
          return -ENAMETOOLONG;
        }
        HeadersNext(i);
        GrownNext(start, fs.files, Headers(i), zero, path);
        if path !in fs.files {
          NewHeaderFile(fs.files, types[i], Header(0, 0));
          ret := WriteHeader(types[i], Header(0, 0));
          if ret < 0 {
            return;
          }
        }
      }
      forall t | 0 <= t < |types|
        ensures Consistent(fs.files, g, types[t]) && Queue(fs.files, g, types[t]) == Recovered(start, t)
        ensures HeaderPath(g.mount, types[t].name) !in start ==> HeaderOf(fs.files, g, types[t]) == Header(0, 0)
      {
        InitializedQueue(start, fs.files, t);
      }
      FewerKeepBounded(start, fs.files, g, types);
      return 0;
    }

    method Clear() returns (ret: int)
      requires Valid()
      modifies fs
      ensures ret == if forall p :: p in old(fs.files) ==> Fits(g, p) then 0 else -ENAMETOOLONG
      ensures ret == 0 ==> Valid() && Queues() == seq(|types|, _ => [])
      ensures ret == 0 ==> forall p :: p in fs.files ==> IsHeader(p)
      ensures ret == 0 ==> forall t :: 0 <= t < |types| ==> HeaderOf(fs.files, g, types[t]) == Header(0, 0)
      ensures ret != 0 ==> forall p :: p in fs.files ==> p in old(fs.files) && fs.files[p] == old(fs.files)[p]
      ensures AllBounded(old(fs.files), g, types) ==> AllBounded(fs.files, g, types)
    {
      hide AllBounded;
      ghost var start := fs.files;
      var entries := fs.files.Keys;
      while entries != {}
        invariant entries == fs.files.Keys
        invariant forall p :: p in fs.files ==> p in start && fs.files[p] == start[p]
        invariant forall p :: p in start && p !in fs.files ==> Fits(g, p)
        decreases entries
      {
        var entry :| entry in entries;
        entries := entries - {entry};
        if !Fits(g, entry) {
          FewerKeepBounded(start, fs.files, g, types);
          return -ENAMETOOLONG;
        }
        ret := fs.Unlink(entry);
        if ret < 0 {
          return;
        }
      }
      FewerKeepBounded(start, fs.files, g, types);
      assert forall t :: 0 <= t < |types| ==> Fits(g, HeaderPath(g.mount, types[t].name));
      ret := InitHeaderFiles();
    }
  }
}
