/** The LittleFS log refines a bounded drop-oldest queue: the effect of store and retrieve, complete
    or interrupted, on the queue that the files encode. */
module LfsQueue {
  import opened Common
  import opened Slots
  import opened LfsPaths
  import opened LfsLayout
  import opened BoundedFifo

  /** Files after the record of a store has been written and before its header has. */
  ghost function AfterRecord(files: Files, g: Geometry, ty: DataType, data: Record): Files
    requires GeometryOk(g) && 0 < ty.size <= g.block && HeaderPresent(files, g, ty)
  {
    var w := HeaderOf(files, g, ty).write;
    Written(files, SlotPath(g, ty, w), SlotPosition(g, ty, w), data)
  }

  ghost function HeaderAfterStore(h: Header, cap: nat): Header {
    Header(if Distance(h.read, h.write) >= cap then Offset(h.read, 1) else h.read, Offset(h.write, 1))
  }

  ghost function WithHeader(files: Files, g: Geometry, ty: DataType, h: Header): Files
  {
    Written(files, HeaderPath(g.mount, ty.name), 0, EncodeHeader(h))
  }

  ghost predicate CanStore(files: Files, g: Geometry, ty: DataType, data: Record)
    requires GeometryOk(g)
  {
    && Consistent(files, g, ty)
    && 0 < ty.size <= g.block && |data| == ty.size
    && Fits(g, SlotPath(g, ty, HeaderOf(files, g, ty).write))
  }

  /** The offset a live record is at shares its slot with the offset being written. */
  ghost predicate Overwrites(read: UInt32, i: nat, write: nat, cap: nat)
    requires 0 < cap
  {
    Wrapped(Offset(read, i), cap) == Wrapped(write, cap)
  }

  /** A store that stops before its header write: the queue keeps its length, and only records on the
      written slot change. */
  lemma InterruptedStoreRecords(files: Files, g: Geometry, ty: DataType, data: Record)
    requires GeometryOk(g) && CanStore(files, g, ty, data)
    ensures var files1 := AfterRecord(files, g, ty, data);
            var h := HeaderOf(files, g, ty);
            && Consistent(files1, g, ty) && HeaderOf(files1, g, ty) == h
            && |Queue(files1, g, ty)| == |Queue(files, g, ty)|
            && forall i :: 0 <= i < |Queue(files1, g, ty)| ==>
                 Queue(files1, g, ty)[i]
                 == if Overwrites(h.read, i, h.write, g.cap) then data else Queue(files, g, ty)[i]
  {
    var h := HeaderOf(files, g, ty);
    SlotWriteKeepsHeader(files, g, ty, h.write, data);
    forall i | 0 <= i < Distance(h.read, h.write) {
      WriteSlot(files, g, ty, h.write, data, Offset(h.read, i));
    }
  }

  /** With room left no record is on the slot being written. */
  lemma FreshSlot(h: Header, cap: nat, i: nat)
    requires 0 < cap < U32
    requires i < Distance(h.read, h.write) < cap
    requires WindowSafe(h.read, Distance(h.read, h.write) + 1, cap)
    ensures !Overwrites(h.read, i, h.write, cap)
  {
    DistanceAfterStore(h, cap);
    SafeWindowDistinct(h.read, Distance(h.read, h.write) + 1, cap, i, Distance(h.read, h.write));
  }

  /** When full, the slot being written is that of the oldest record and no other. */
  lemma OldestSlot(h: Header, cap: nat, i: nat)
    requires 0 < cap < U32
    requires Distance(h.read, h.write) == cap && i < cap
    requires h.read + cap < U32 || U32 % cap == 0
    ensures Overwrites(h.read, i, h.write, cap) <==> i == 0
  {
    DistanceAfterStore(h, cap);
    OffsetShift(h.read, 0);
    SameSlotOneLapLater(h.read, cap);
    if i > 0 {
      SafeWindowDistinct(h.read, cap, cap, 0, i);
    }
  }

  lemma SameSlotOneLapLater(read: UInt32, cap: nat)
    requires 0 < cap < U32 && (read + cap < U32 || U32 % cap == 0)
    ensures Wrapped(Offset(read, cap), cap) == Wrapped(read, cap)
  {
    DivMod(read, cap);
    var q, s := read / cap, read % cap;
    assert (q + 1) * cap == q * cap + cap;
    if read + cap < U32 {
      ModUnique(read + cap, cap, q + 1, s);
    } else {
      DivMod(U32, cap);
      assert U32 == (U32 / cap) * cap;
      assert (q + 1 - U32 / cap) * cap == (q + 1) * cap - (U32 / cap) * cap;
      ModUnique(read + cap - U32, cap, q + 1 - U32 / cap, s);
    }
  }

  /** An interrupted store loses nothing while there is room; when the log is full it has already
      replaced the oldest record by the new one, and changed nothing else. */
  lemma InterruptedStore(files: Files, g: Geometry, ty: DataType, data: Record)
    requires GeometryOk(g) && CanStore(files, g, ty, data)
    ensures var files1 := AfterRecord(files, g, ty, data);
            var h := HeaderOf(files, g, ty);
            var n := Distance(h.read, h.write);
            && Consistent(files1, g, ty)
            && (n < g.cap && WindowSafe(h.read, n + 1, g.cap) ==>
                  Queue(files1, g, ty) == Queue(files, g, ty))
            && (n == g.cap && (h.read + g.cap < U32 || U32 % g.cap == 0) ==>
                  Queue(files1, g, ty) == Queue(files, g, ty)[0 := data])
  {
    InterruptedStoreRecords(files, g, ty, data);
    var h := HeaderOf(files, g, ty);
    var n := Distance(h.read, h.write);
    forall i | 0 <= i < n
      ensures n < g.cap && WindowSafe(h.read, n + 1, g.cap) ==> !Overwrites(h.read, i, h.write, g.cap)
      ensures n == g.cap && (h.read + g.cap < U32 || U32 % g.cap == 0) ==>
                (Overwrites(h.read, i, h.write, g.cap) <==> i == 0)
    {
      if n < g.cap && WindowSafe(h.read, n + 1, g.cap) {
        FreshSlot(h, g.cap, i);
      }
      if n == g.cap && (h.read + g.cap < U32 || U32 % g.cap == 0) {
        OldestSlot(h, g.cap, i);
      }
    }
  }

  /** The window of live records after a store. */
  ghost function NextRead(h: Header, cap: nat): UInt32 {
    HeaderAfterStore(h, cap).read
  }

  ghost function NextCount(h: Header, cap: nat): nat {
    if Distance(h.read, h.write) < cap then Distance(h.read, h.write) + 1 else Distance(h.read, h.write)
  }

  ghost function AfterStore(files: Files, g: Geometry, ty: DataType, data: Record): Files
    requires GeometryOk(g) && 0 < ty.size <= g.block && HeaderPresent(files, g, ty)
  {
    WithHeader(AfterRecord(files, g, ty, data), g, ty, HeaderAfterStore(HeaderOf(files, g, ty), g.cap))
  }

  /** Off the written slot, the window after a store finds the records of the pushed queue. */
  lemma SurvivingRecord(files: Files, g: Geometry, ty: DataType, data: Record, i: nat)
    requires GeometryOk(g) && CanStore(files, g, ty, data)
    requires i < NextCount(HeaderOf(files, g, ty), g.cap)
    requires var h := HeaderOf(files, g, ty); !Overwrites(NextRead(h, g.cap), i, h.write, g.cap)
    ensures var k := Offset(NextRead(HeaderOf(files, g, ty), g.cap), i);
            && HasSlot(files, g, ty, k)
            && i < |Push(Queue(files, g, ty), data, g.cap)|
            && SlotRecord(files, g, ty, k) == Push(Queue(files, g, ty), data, g.cap)[i]
  {
    var h := HeaderOf(files, g, ty);
    var n := Distance(h.read, h.write);
    DistanceAfterStore(h, g.cap);
    OffsetShift(h.read, i);
    assert Queue(files, g, ty)[if n < g.cap then i else i + 1]
        == SlotRecord(files, g, ty, Offset(NextRead(h, g.cap), i));
  }

  /** One entry of the queue after a complete store. */
  lemma StoredEntry(files: Files, g: Geometry, ty: DataType, data: Record, i: nat)
    requires GeometryOk(g) && CanStore(files, g, ty, data)
    requires i < NextCount(HeaderOf(files, g, ty), g.cap)
    ensures var h := HeaderOf(files, g, ty);
            var k := Offset(NextRead(h, g.cap), i);
            var files2 := AfterStore(files, g, ty, data);
            && HasSlot(files2, g, ty, k)
            && (Overwrites(NextRead(h, g.cap), i, h.write, g.cap) ==> SlotRecord(files2, g, ty, k) == data)
            && (!Overwrites(NextRead(h, g.cap), i, h.write, g.cap) ==>
                  i < |Push(Queue(files, g, ty), data, g.cap)|
                  && SlotRecord(files2, g, ty, k) == Push(Queue(files, g, ty), data, g.cap)[i])
  {
    var h := HeaderOf(files, g, ty);
    var k := Offset(NextRead(h, g.cap), i);
    SlotWriteKeepsHeader(files, g, ty, h.write, data);
    WriteHeaderFile(AfterRecord(files, g, ty, data), g, ty, HeaderAfterStore(h, g.cap));
    WriteSlot(files, g, ty, h.write, data, k);
    if !Overwrites(NextRead(h, g.cap), i, h.write, g.cap) {
      SurvivingRecord(files, g, ty, data, i);
    }
  }

  /** `n` records from offset `read` on hold exactly `q`. */
  ghost predicate WindowHolds(files: Files, g: Geometry, ty: DataType, read: UInt32, q: seq<Record>)
    requires GeometryOk(g)
  {
    forall i :: 0 <= i < |q| ==>
      HasSlot(files, g, ty, Offset(read, i)) && SlotRecord(files, g, ty, Offset(read, i)) == q[i]
  }

  lemma WindowIsQueue(files: Files, g: Geometry, ty: DataType, q: seq<Record>)
    requires GeometryOk(g) && HeaderPresent(files, g, ty)
    requires var h := HeaderOf(files, g, ty);
             |q| == Distance(h.read, h.write) <= g.cap && WindowHolds(files, g, ty, h.read, q)
    ensures Consistent(files, g, ty) && Queue(files, g, ty) == q
  {
  }

  /** The queue a store leaves behind: that of a bounded queue, but for entries on the written slot. */
  ghost function StoredQueue(q: seq<Record>, h: Header, data: Record, cap: nat): (r: seq<Record>)
    requires 0 < cap && |q| == Distance(h.read, h.write) <= cap
    ensures |r| == NextCount(h, cap) == |Push(q, data, cap)|
  {
    var pushed := Push(q, data, cap);
    seq(|pushed|, i requires 0 <= i < |pushed| =>
          if Overwrites(NextRead(h, cap), i, h.write, cap) then data else pushed[i])
  }

  /** A complete store: the count is always right, and each entry is the one a bounded queue would
      have unless its slot is the one just written. */
  lemma StoreRecords(files: Files, g: Geometry, ty: DataType, data: Record)
    requires GeometryOk(g) && CanStore(files, g, ty, data)
    ensures var h := HeaderOf(files, g, ty);
            var files2 := AfterStore(files, g, ty, data);
            && Consistent(files2, g, ty) && HeaderOf(files2, g, ty) == HeaderAfterStore(h, g.cap)
            && Queue(files2, g, ty) == StoredQueue(Queue(files, g, ty), h, data, g.cap)
  {
    var h := HeaderOf(files, g, ty);
    var q2 := StoredQueue(Queue(files, g, ty), h, data, g.cap);
    SlotWriteKeepsHeader(files, g, ty, h.write, data);
    WriteHeaderFile(AfterRecord(files, g, ty, data), g, ty, HeaderAfterStore(h, g.cap));
    DistanceAfterStore(h, g.cap);
    var files2 := AfterStore(files, g, ty, data);
    assert WindowHolds(files2, g, ty, NextRead(h, g.cap), q2) by {
      forall i: nat | i < |q2|
        ensures HasSlot(files2, g, ty, Offset(NextRead(h, g.cap), i))
        ensures SlotRecord(files2, g, ty, Offset(NextRead(h, g.cap), i)) == q2[i]
      {
        StoredEntry(files, g, ty, data, i);
      }
    }
    WindowIsQueue(files2, g, ty, q2);
  }

  /** The record just stored is the last of the window. */
  lemma NewestOffset(h: Header, cap: nat)
    requires 0 < cap < U32 && Distance(h.read, h.write) <= cap
    ensures Offset(NextRead(h, cap), NextCount(h, cap) - 1) == h.write
  {
    DistanceAfterStore(h, cap);
    OffsetShift(h.read, NextCount(h, cap) - 1);
  }

  lemma StoredIsPush(q: seq<Record>, h: Header, data: Record, cap: nat)
    requires 0 < cap < U32 && |q| == Distance(h.read, h.write) <= cap
    requires WindowSafe(NextRead(h, cap), NextCount(h, cap), cap)
    ensures StoredQueue(q, h, data, cap) == Push(q, data, cap)
  {
    SafeStoreIsPush(h, cap);
    hide WindowSafe, Overwrites;
  }

  /** In a safe window a store acts as a bounded drop-oldest queue. */
  lemma StoreRefines(files: Files, g: Geometry, ty: DataType, data: Record)
    requires GeometryOk(g) && CanStore(files, g, ty, data)
    requires var h := HeaderOf(files, g, ty); WindowSafe(NextRead(h, g.cap), NextCount(h, g.cap), g.cap)
    ensures Consistent(AfterStore(files, g, ty, data), g, ty)
    ensures Queue(AfterStore(files, g, ty, data), g, ty) == Push(Queue(files, g, ty), data, g.cap)
  {
    hide WindowSafe, AfterStore, StoredQueue, Queue, Push;
    StoreRecords(files, g, ty, data);
    StoredIsPush(Queue(files, g, ty), HeaderOf(files, g, ty), data, g.cap);
  }

  /** In an unsafe window two live records share a slot, and one reads back as the other. */
  lemma UnsafeStoreMerges(files: Files, g: Geometry, ty: DataType, data: Record) returns (i: nat, j: nat)
    requires GeometryOk(g) && CanStore(files, g, ty, data)
    requires var h := HeaderOf(files, g, ty); !WindowSafe(NextRead(h, g.cap), NextCount(h, g.cap), g.cap)
    ensures Consistent(AfterStore(files, g, ty, data), g, ty)
    ensures i < j < |Queue(AfterStore(files, g, ty, data), g, ty)|
    ensures Queue(AfterStore(files, g, ty, data), g, ty)[i] == Queue(AfterStore(files, g, ty, data), g, ty)[j]
  {
    StoreRecords(files, g, ty, data);
    var h := HeaderOf(files, g, ty);
    var r := NextRead(h, g.cap);
    i, j := UnsafeWindowCollides(r, NextCount(h, g.cap), g.cap);
    SameSlotSameRecord(AfterStore(files, g, ty, data), g, ty, Offset(r, i), Offset(r, j));
  }

  ghost predicate PairwiseDistinct(q: seq<Record>) {
    forall i, j :: 0 <= i < j < |q| ==> q[i] != q[j]
  }

  /** For records that can be told apart, a store acts as a bounded queue exactly when the window after
      it is safe: no counter wrap inside it, or a capacity that divides 2^32, or a count of at most the
      remainder. */
  lemma StoreRefinesIff(files: Files, g: Geometry, ty: DataType, data: Record)
    requires GeometryOk(g) && CanStore(files, g, ty, data)
    requires PairwiseDistinct(Push(Queue(files, g, ty), data, g.cap))
    ensures var h := HeaderOf(files, g, ty);
            && Consistent(AfterStore(files, g, ty, data), g, ty)
            && (Queue(AfterStore(files, g, ty, data), g, ty) == Push(Queue(files, g, ty), data, g.cap)
                <==> WindowSafe(NextRead(h, g.cap), NextCount(h, g.cap), g.cap))
  {
    var h := HeaderOf(files, g, ty);
    if WindowSafe(NextRead(h, g.cap), NextCount(h, g.cap), g.cap) {
      StoreRefines(files, g, ty, data);
    } else {
      var i, j := UnsafeStoreMerges(files, g, ty, data);
    }
  }

  /** In a safe window only the newest record is on the slot just written. */
  lemma SafeStoreIsPush(h: Header, cap: nat)
    requires 0 < cap < U32 && Distance(h.read, h.write) <= cap
    requires WindowSafe(NextRead(h, cap), NextCount(h, cap), cap)
    ensures forall i :: 0 <= i < NextCount(h, cap) - 1 ==> !Overwrites(NextRead(h, cap), i, h.write, cap)
  {
    NewestOffset(h, cap);
    forall i: nat | i < NextCount(h, cap) - 1 {
      SafeWindowDistinct(NextRead(h, cap), NextCount(h, cap), cap, i, NextCount(h, cap) - 1);
    }
  }

  lemma SameSlotSameRecord(files: Files, g: Geometry, ty: DataType, k: nat, l: nat)
    requires GeometryOk(g) && HasSlot(files, g, ty, k) && HasSlot(files, g, ty, l)
    requires Wrapped(k, g.cap) == Wrapped(l, g.cap)
    ensures SlotRecord(files, g, ty, k) == SlotRecord(files, g, ty, l)
  {
  }

  ghost function HeaderAfterRetrieve(h: Header): Header
  {
    Header(Offset(h.read, 1), h.write)
  }

  ghost function AfterRetrieve(files: Files, g: Geometry, ty: DataType): Files
    requires GeometryOk(g) && HeaderPresent(files, g, ty)
  {
    WithHeader(files, g, ty, HeaderAfterRetrieve(HeaderOf(files, g, ty)))
  }

  /** The `i`-th record after the oldest is the `i`-th from the advanced read counter. */
  lemma LaterRecord(files: Files, g: Geometry, ty: DataType, i: nat)
    requires GeometryOk(g) && Consistent(files, g, ty) && i + 1 < |Queue(files, g, ty)|
    ensures var k := Offset(HeaderAfterRetrieve(HeaderOf(files, g, ty)).read, i);
            HasSlot(files, g, ty, k) && SlotRecord(files, g, ty, k) == Queue(files, g, ty)[i + 1]
  {
    OffsetShift(HeaderOf(files, g, ty).read, i);
  }

  lemma LaterWindow(files: Files, g: Geometry, ty: DataType)
    requires GeometryOk(g) && Consistent(files, g, ty) && Queue(files, g, ty) != []
    ensures WindowHolds(files, g, ty, HeaderAfterRetrieve(HeaderOf(files, g, ty)).read, Queue(files, g, ty)[1..])
  {
    forall i: nat | i + 1 < |Queue(files, g, ty)| {
      LaterRecord(files, g, ty, i);
    }
  }

  lemma NonEmptyDistance(h: Header)
    requires Distance(h.read, h.write) > 0
    ensures h.read != h.write
    ensures Distance(HeaderAfterRetrieve(h).read, h.write) == Distance(h.read, h.write) - 1
  {
    DistanceAfterRetrieve(h);
  }

  /** A header write leaves every window of records alone. */
  lemma HeaderWriteKeepsWindow(files: Files, g: Geometry, ty: DataType, h: Header, read: UInt32, q: seq<Record>)
    requires GeometryOk(g)
    requires HeaderPresent(files, g, ty) && WindowHolds(files, g, ty, read, q)
    ensures var files' := WithHeader(files, g, ty, h);
            HeaderPresent(files', g, ty) && HeaderOf(files', g, ty) == h && WindowHolds(files', g, ty, read, q)
  {
    WriteHeaderFile(files, g, ty, h);
  }

  /** A retrieve only advances the read counter; until that header write the queue is untouched. */
  lemma RetrieveRefines(files: Files, g: Geometry, ty: DataType)
    requires GeometryOk(g) && Consistent(files, g, ty) && Queue(files, g, ty) != []
    ensures var files' := AfterRetrieve(files, g, ty);
            && Consistent(files', g, ty)
            && HeaderOf(files', g, ty) == HeaderAfterRetrieve(HeaderOf(files, g, ty))
            && Queue(files', g, ty) == Queue(files, g, ty)[1..]
  {
    var h := HeaderOf(files, g, ty);
    var h' := HeaderAfterRetrieve(h);
    var q' := Queue(files, g, ty)[1..];
    LaterWindow(files, g, ty);
    HeaderWriteKeepsWindow(files, g, ty, h', h'.read, q');
    NonEmptyDistance(h);
    WindowIsQueue(AfterRetrieve(files, g, ty), g, ty, q');
  }

  /** Storing or retrieving one type leaves the queue of every other type alone. */
  lemma OtherTypesUntouched(files: Files, g: Geometry, ty: DataType, data: Record, other: DataType)
    requires GeometryOk(g) && HeaderPresent(files, g, ty)
    requires Consistent(files, g, other) && other.name != ty.name
    ensures 0 < ty.size <= g.block && |data| == ty.size ==>
              && Consistent(AfterRecord(files, g, ty, data), g, other)
              && Queue(AfterRecord(files, g, ty, data), g, other) == Queue(files, g, other)
              && Consistent(AfterStore(files, g, ty, data), g, other)
              && Queue(AfterStore(files, g, ty, data), g, other) == Queue(files, g, other)
    ensures Consistent(AfterRetrieve(files, g, ty), g, other)
    ensures Queue(AfterRetrieve(files, g, ty), g, other) == Queue(files, g, other)
  {
    var h := HeaderOf(files, g, ty);
    if 0 < ty.size <= g.block && |data| == ty.size {
      RecordWriteOfOther(files, g, ty, data, other);
      HeaderWriteOfOther(AfterRecord(files, g, ty, data), g, ty, HeaderAfterStore(h, g.cap), other);
    }
    HeaderWriteOfOther(files, g, ty, HeaderAfterRetrieve(h), other);
  }

  lemma RecordWriteOfOther(files: Files, g: Geometry, ty: DataType, data: Record, other: DataType)
    requires GeometryOk(g) && HeaderPresent(files, g, ty) && 0 < ty.size <= g.block
    requires Consistent(files, g, other) && other.name != ty.name
    ensures Consistent(AfterRecord(files, g, ty, data), g, other)
    ensures Queue(AfterRecord(files, g, ty, data), g, other) == Queue(files, g, other)
  {
    FileFitsBlock(0, 1, ty.size, g.block);
    var w := HeaderOf(files, g, ty).write;
    WriteOfOtherType(files, g, other, ty, SlotPath(g, ty, w), SlotPosition(g, ty, w), data,
                     FileIndex(g.block / ty.size, Wrapped(w, g.cap)));
    SameQueue(files, AfterRecord(files, g, ty, data), g, other);
  }

  lemma HeaderWriteOfOther(files: Files, g: Geometry, ty: DataType, h: Header, other: DataType)
    requires GeometryOk(g)
    requires Consistent(files, g, other) && other.name != ty.name
    ensures Consistent(WithHeader(files, g, ty, h), g, other)
    ensures Queue(WithHeader(files, g, ty, h), g, other) == Queue(files, g, other)
  {
    WriteOfOtherType(files, g, other, ty, HeaderPath(g.mount, ty.name), 0, EncodeHeader(h), 0);
    SameQueue(files, WithHeader(files, g, ty, h), g, other);
  }

  /** While fewer than 2^32 records have been stored no window is unsafe, and with a capacity that
      divides 2^32 none ever is. */
  lemma SafeBelowWrap(h: Header, cap: nat)
    requires 0 < cap < U32 && h.read <= h.write && Distance(h.read, h.write) <= cap
    ensures WindowSafe(NextRead(h, cap), NextCount(h, cap), cap)
    ensures h.write + 1 < U32 ==> HeaderAfterStore(h, cap).read <= HeaderAfterStore(h, cap).write
  {
  }
}
