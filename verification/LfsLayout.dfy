/** What the files of the LittleFS backend mean: header files, record slots, and the queue they encode.
    The file system is a map from path to bytes. */
module LfsLayout {
  import opened Common
  import opened Slots
  import opened LfsPaths

  type Files = map<string, seq<Byte>>

  /** Mount point, flash block size, RECORDS_PER_TYPE and MAX_PATH_LEN. */
  datatype Geometry = Geometry(mount: string, block: nat, cap: nat, maxPath: nat)

  ghost predicate GeometryOk(g: Geometry) {
    0 < g.cap < U32
  }

  predicate Fits(g: Geometry, path: string) {
    |path| < g.maxPath
  }

  datatype Header = Header(read: UInt32, write: UInt32)

  /** The slot an offset is stored in: a file and a byte position. */
  function SlotPath(g: Geometry, ty: DataType, offset: nat): string
    requires 0 < ty.size <= g.block && 0 < g.cap
  {
    FileFitsBlock(0, 1, ty.size, g.block);
    DataPath(g.mount, ty.name, FileIndex(g.block / ty.size, Wrapped(offset, g.cap)))
  }

  function SlotPosition(g: Geometry, ty: DataType, offset: nat): nat
    requires 0 < ty.size <= g.block && 0 < g.cap
  {
    FileFitsBlock(0, 1, ty.size, g.block);
    Position(g.block / ty.size, Wrapped(offset, g.cap), g.cap, ty.size)
  }

  function Le32(n: UInt32): (b: seq<Byte>)
    ensures |b| == 4
  {
    [n % 256, n / 256 % 256, n / 256 / 256 % 256, n / 256 / 256 / 256]
  }

  function FromLe32(b: seq<Byte>): UInt32
    requires |b| == 4
  {
    b[0] as int + 256 * (b[1] as int + 256 * (b[2] as int + 256 * b[3] as int))
  }

  lemma Le32RoundTrip(n: UInt32)
    ensures FromLe32(Le32(n)) == n
  {
  }

  /** `struct storage_file_header` on a little-endian target. */
  function EncodeHeader(h: Header): (b: seq<Byte>)
    ensures |b| == 8
  {
    Le32(h.read) + Le32(h.write)
  }

  function DecodeHeader(b: seq<Byte>): (h: Header)
    requires |b| >= 8
  {
    Header(FromLe32(b[..4]), FromLe32(b[4..8]))
  }

  lemma HeaderRoundTrip(h: Header, rest: seq<Byte>)
    ensures DecodeHeader(EncodeHeader(h) + rest) == h
  {
    Le32RoundTrip(h.read);
    Le32RoundTrip(h.write);
    var b := EncodeHeader(h) + rest;
    assert b[..4] == Le32(h.read) && b[4..8] == Le32(h.write);
  }

  function HeaderOf(files: Files, g: Geometry, ty: DataType): Header
    requires HeaderPath(g.mount, ty.name) in files && |files[HeaderPath(g.mount, ty.name)]| >= 8
  {
    DecodeHeader(files[HeaderPath(g.mount, ty.name)])
  }

  /** Seek and write: a gap past the end of the file reads back as zeros. */
  function Splice(content: seq<Byte>, pos: nat, data: seq<Byte>): (r: seq<Byte>)
    ensures |r| == Max(|content|, pos + |data|)
    ensures r[pos..pos + |data|] == data
    ensures forall i :: 0 <= i < |content| && !(pos <= i < pos + |data|) ==> r[i] == content[i]
  {
    var padded: seq<Byte> := content + seq(if |content| < pos then pos - |content| else 0, _ => 0);
    padded[..pos] + data + if pos + |data| < |padded| then padded[pos + |data|..] else []
  }

  function Written(files: Files, path: string, pos: nat, data: seq<Byte>): Files {
    files[path := Splice(if path in files then files[path] else [], pos, data)]
  }

  /** The slot of `offset` has been written, and its path could be built. */
  ghost predicate HasSlot(files: Files, g: Geometry, ty: DataType, offset: nat)
    requires 0 < g.cap
  {
    && 0 < ty.size <= g.block
    && SlotPath(g, ty, offset) in files
    && Fits(g, SlotPath(g, ty, offset))
    && SlotPosition(g, ty, offset) + ty.size <= |files[SlotPath(g, ty, offset)]|
  }

  ghost function SlotRecord(files: Files, g: Geometry, ty: DataType, offset: nat): Record
    requires 0 < g.cap && HasSlot(files, g, ty, offset)
  {
    var pos := SlotPosition(g, ty, offset);
    files[SlotPath(g, ty, offset)][pos..pos + ty.size]
  }

  ghost predicate HeaderPresent(files: Files, g: Geometry, ty: DataType) {
    && HeaderPath(g.mount, ty.name) in files
    && |files[HeaderPath(g.mount, ty.name)]| == 8
    && Fits(g, HeaderPath(g.mount, ty.name))
  }

  /** The files of a type encode a queue: every live offset has a written slot. */
  ghost predicate Consistent(files: Files, g: Geometry, ty: DataType)
    requires GeometryOk(g)
  {
    && HeaderPresent(files, g, ty)
    && var h := HeaderOf(files, g, ty);
      && Distance(h.read, h.write) <= g.cap
      && forall i :: 0 <= i < Distance(h.read, h.write) ==> HasSlot(files, g, ty, Offset(h.read, i))
  }

  ghost function Queue(files: Files, g: Geometry, ty: DataType): (q: seq<Record>)
    requires GeometryOk(g) && Consistent(files, g, ty)
    ensures |q| == Distance(HeaderOf(files, g, ty).read, HeaderOf(files, g, ty).write)
  {
    var h := HeaderOf(files, g, ty);
    seq(Distance(h.read, h.write),
        i requires 0 <= i < Distance(h.read, h.write) => SlotRecord(files, g, ty, Offset(h.read, i)))
  }

  // ---- What one write does to the meaning of the files ----

  /** Writing a slot changes the records on that slot and no other. */
  lemma WriteSlot(files: Files, g: Geometry, ty: DataType, at: nat, data: Record, k: nat)
    requires GeometryOk(g) && 0 < ty.size <= g.block && |data| == ty.size
    requires Fits(g, SlotPath(g, ty, at))
    ensures var files' := Written(files, SlotPath(g, ty, at), SlotPosition(g, ty, at), data);
            && (Wrapped(k, g.cap) == Wrapped(at, g.cap) ==>
                  HasSlot(files', g, ty, k) && SlotRecord(files', g, ty, k) == data)
            && (Wrapped(k, g.cap) != Wrapped(at, g.cap) && HasSlot(files, g, ty, k) ==>
                  HasSlot(files', g, ty, k) && SlotRecord(files', g, ty, k) == SlotRecord(files, g, ty, k))
  {
    FileFitsBlock(0, 1, ty.size, g.block);
    var epb := g.block / ty.size;
    var s, sk := Wrapped(at, g.cap), Wrapped(k, g.cap);
    if s != sk {
      SlotsDisjoint(epb, s, sk, g.cap, ty.size);
      if FileIndex(epb, s) != FileIndex(epb, sk) {
        if SlotPath(g, ty, at) == SlotPath(g, ty, k) {
          DataPathInjective(g.mount, ty.name, FileIndex(epb, s), ty.name, FileIndex(epb, sk));
        }
      }
    }
  }

  /** A type is told apart from another by its name alone: files of one say nothing of the other. */
  ghost predicate SameFor(files: Files, files': Files, g: Geometry, ty: DataType)
    requires GeometryOk(g)
  {
    && (HeaderPresent(files, g, ty) ==>
          HeaderPresent(files', g, ty) && HeaderOf(files', g, ty) == HeaderOf(files, g, ty))
    && forall k: nat {:trigger HasSlot(files, g, ty, k)} :: HasSlot(files, g, ty, k) ==>
         HasSlot(files', g, ty, k) && SlotRecord(files', g, ty, k) == SlotRecord(files, g, ty, k)
  }

  lemma SameQueue(files: Files, files': Files, g: Geometry, ty: DataType)
    requires GeometryOk(g) && SameFor(files, files', g, ty) && Consistent(files, g, ty)
    ensures Consistent(files', g, ty) && Queue(files', g, ty) == Queue(files, g, ty)
  {
  }

  lemma WriteOfOtherType(files: Files, g: Geometry, ty: DataType, other: DataType, path: string,
                         pos: nat, data: seq<Byte>, index: nat)
    requires GeometryOk(g) && ty.name != other.name
    requires path == HeaderPath(g.mount, other.name) || path == DataPath(g.mount, other.name, index)
    ensures SameFor(files, Written(files, path, pos, data), g, ty)
  {
    var files' := Written(files, path, pos, data);
    if HeaderPath(g.mount, ty.name) == path {
      if path == HeaderPath(g.mount, other.name) {
        HeaderPathInjective(g.mount, ty.name, other.name);
      } else {
        DataIsNotHeader(g.mount, other.name, index, ty.name);
      }
    }
    forall k: nat | HasSlot(files, g, ty, k)
      ensures HasSlot(files', g, ty, k) && SlotRecord(files', g, ty, k) == SlotRecord(files, g, ty, k)
    {
      FileFitsBlock(0, 1, ty.size, g.block);
      var file := FileIndex(g.block / ty.size, Wrapped(k, g.cap));
      if SlotPath(g, ty, k) == path {
        if path == HeaderPath(g.mount, other.name) {
          DataIsNotHeader(g.mount, ty.name, file, other.name);
        } else {
          DataPathInjective(g.mount, ty.name, file, other.name, index);
        }
      }
    }
  }

  /** A slot write leaves the type's own header alone. */
  lemma SlotWriteKeepsHeader(files: Files, g: Geometry, ty: DataType, at: nat, data: Record)
    requires GeometryOk(g) && 0 < ty.size <= g.block && HeaderPresent(files, g, ty)
    ensures var files' := Written(files, SlotPath(g, ty, at), SlotPosition(g, ty, at), data);
            HeaderPresent(files', g, ty) && HeaderOf(files', g, ty) == HeaderOf(files, g, ty)
  {
    FileFitsBlock(0, 1, ty.size, g.block);
    DataIsNotHeader(g.mount, ty.name, FileIndex(g.block / ty.size, Wrapped(at, g.cap)), ty.name);
  }

  /** A header write changes the header of its type and no slot. */
  lemma WriteHeaderFile(files: Files, g: Geometry, ty: DataType, h: Header)
    requires GeometryOk(g)
    requires Fits(g, HeaderPath(g.mount, ty.name))
    requires HeaderPath(g.mount, ty.name) in files ==> |files[HeaderPath(g.mount, ty.name)]| == 8
    ensures var files' := Written(files, HeaderPath(g.mount, ty.name), 0, EncodeHeader(h));
            && HeaderPresent(files', g, ty) && HeaderOf(files', g, ty) == h
            && forall k: nat {:trigger HasSlot(files', g, ty, k)} :: HasSlot(files, g, ty, k) ==>
                 HasSlot(files', g, ty, k) && SlotRecord(files', g, ty, k) == SlotRecord(files, g, ty, k)
  {
    var path := HeaderPath(g.mount, ty.name);
    var files' := Written(files, path, 0, EncodeHeader(h));
    HeaderRoundTrip(h, []);
    assert files'[path] == EncodeHeader(h) + [] by {
      assert files'[path][0..8] == EncodeHeader(h);
    }
    forall k: nat | HasSlot(files, g, ty, k)
      ensures HasSlot(files', g, ty, k) && SlotRecord(files', g, ty, k) == SlotRecord(files, g, ty, k)
    {
      FileFitsBlock(0, 1, ty.size, g.block);
      DataIsNotHeader(g.mount, ty.name, FileIndex(g.block / ty.size, Wrapped(k, g.cap)), ty.name);
    }
  }

  // ---- Counter arithmetic ----

  /** The 32-bit difference of the counters counts records exactly, across the wrap. */
  lemma DistanceAfterStore(h: Header, cap: nat)
    requires 0 < cap < U32 && Distance(h.read, h.write) <= cap
    ensures Distance(h.read, h.write) < cap ==>
              Distance(h.read, Offset(h.write, 1)) == Distance(h.read, h.write) + 1
    ensures Distance(Offset(h.read, 1), Offset(h.write, 1)) == Distance(h.read, h.write)
    ensures Offset(h.read, Distance(h.read, h.write)) == h.write
  {
  }

  lemma DistanceAfterRetrieve(h: Header)
    requires h.read != h.write
    ensures Distance(h.read, h.write) > 0
    ensures Distance(Offset(h.read, 1), h.write) == Distance(h.read, h.write) - 1
  {
  }

  lemma OffsetShift(read: UInt32, i: nat)
    requires i + 1 < U32
    ensures Offset(Offset(read, 1), i) == Offset(read, i + 1)
    ensures Offset(read, 0) == read
  {
  }
}
