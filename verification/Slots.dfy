/** The arithmetic of the LittleFS circular log: free-running 32-bit offsets mapped onto `cap` slots,
    and slots mapped onto files of at most one flash block. */
module Slots {
  import opened Common

  /** `write_offset - read_offset` in `uint32_t`. */
  function Distance(read: UInt32, write: UInt32): UInt32 {
    if read <= write then write - read else write + U32 - read
  }

  /** The free-running offset `i` places after `read`, in `uint32_t`. */
  function Offset(read: UInt32, i: nat): (k: nat)
    ensures i < U32 ==> k < U32
  {
    if read + i < U32 then read + i else read + i - U32
  }

  /** Both are the C arithmetic modulo 2^32. */
  lemma CounterArithmetic(read: UInt32, write: UInt32, i: nat)
    requires i < U32
    ensures Distance(read, write) == (write - read) % U32
    ensures Offset(read, i) == (read + i) % U32 < U32
  {
    if read <= write {
      ModUnique(write - read, U32, 0, write - read);
    } else {
      assert (write - read) / U32 == -1;
    }
    ModUnique(read + i, U32, if read + i < U32 then 0 else 1, Offset(read, i));
  }

  /** The slot of an offset. */
  function Wrapped(offset: nat, cap: nat): (s: nat)
    requires 0 < cap
    ensures s < cap
  {
    offset % cap
  }

  function FileIndex(entriesPerBlock: nat, slot: nat): nat
    requires 0 < entriesPerBlock
  {
    slot / entriesPerBlock
  }

  function EntryOffset(entriesPerBlock: nat, slot: nat): (e: nat)
    requires 0 < entriesPerBlock
    ensures e < entriesPerBlock && e <= slot
  {
    DivMod(slot, entriesPerBlock);
    slot % entriesPerBlock
  }

  /** `(entry_offset_index % RECORDS_PER_TYPE) * data_size`. */
  function Position(entriesPerBlock: nat, slot: nat, cap: nat, size: nat): nat
    requires 0 < entriesPerBlock && 0 < cap
  {
    (EntryOffset(entriesPerBlock, slot) % cap) * size
  }

  lemma DivMod(x: nat, n: nat)
    requires 0 < n
    ensures x == (x / n) * n + x % n && 0 <= x % n < n && x % n <= x
  {
  }

  /** A multiple of `n` is zero or at least `n` away from it. */
  lemma MultipleSize(d: int, n: int)
    requires 0 < n
    ensures d >= 1 ==> d * n >= n
    ensures d <= -1 ==> d * n <= -n
  {
    if d >= 1 {
      assert (d - 1) * n >= 0;
    } else {
      assert (-d) * n == -(d * n);
      if d <= -1 {
        assert (-d - 1) * n >= 0;
      }
    }
  }

  lemma ModUnique(x: nat, n: nat, q: int, s: nat)
    requires 0 < n && x == q * n + s && s < n
    ensures x % n == s
  {
    DivMod(x, n);
    var d := q - x / n;
    assert d * n == x % n - s;
    MultipleSize(d, n);
  }

  /** Two slots never overlap: they are in different files or in disjoint byte ranges. */
  lemma SlotsDisjoint(entriesPerBlock: nat, s1: nat, s2: nat, cap: nat, size: nat)
    requires 0 < entriesPerBlock && s1 < cap && s2 < cap && s1 != s2
    ensures FileIndex(entriesPerBlock, s1) != FileIndex(entriesPerBlock, s2)
         || Position(entriesPerBlock, s1, cap, size) + size <= Position(entriesPerBlock, s2, cap, size)
         || Position(entriesPerBlock, s2, cap, size) + size <= Position(entriesPerBlock, s1, cap, size)
  {
    DivMod(s1, entriesPerBlock);
    DivMod(s2, entriesPerBlock);
    var e1, e2 := EntryOffset(entriesPerBlock, s1), EntryOffset(entriesPerBlock, s2);
    ModUnique(e1, cap, 0, e1);
    ModUnique(e2, cap, 0, e2);
    if FileIndex(entriesPerBlock, s1) == FileIndex(entriesPerBlock, s2) {
      assert e1 != e2;
      GapsAreWide(e1, e2, size);
      GapsAreWide(e2, e1, size);
    }
  }

  lemma GapsAreWide(e1: nat, e2: nat, size: nat)
    ensures e1 < e2 ==> e1 * size + size <= e2 * size
  {
    if e1 < e2 {
      ScaleLe(e1 + 1, e2, size);
      assert (e1 + 1) * size == e1 * size + size;
    }
  }

  /** No file outgrows its block. */
  lemma FileFitsBlock(slot: nat, cap: nat, size: nat, block: nat)
    requires 0 < size <= block && slot < cap
    ensures 0 < block / size
    ensures Position(block / size, slot, cap, size) + size <= block
  {
    var epb := block / size;
    DivMod(block, size);
    MultipleSize(epb, size);
    var e := EntryOffset(epb, slot);
    ModUnique(e, cap, 0, e);
    GapsAreWide(e, epb, size);
  }

  /** The offsets of a window of `n` live records occupy pairwise different slots. */
  ghost predicate WindowDistinct(read: UInt32, n: nat, cap: nat)
    requires 0 < cap
  {
    forall i, j :: 0 <= i < j < n ==> Wrapped(Offset(read, i), cap) != Wrapped(Offset(read, j), cap)
  }

  /** The window does not cross the 32-bit wrap, or crosses it harmlessly. */
  predicate WindowSafe(read: UInt32, n: nat, cap: nat)
    requires 0 < cap
  {
    read + n <= U32 || U32 % cap == 0 || n <= U32 % cap
  }

  /** Past the wrap the slots count up from zero. */
  lemma SlotInWindow(read: UInt32, i: nat, cap: nat)
    requires 0 < cap < U32 && i < cap
    ensures read + i >= U32 ==> Wrapped(Offset(read, i), cap) == read + i - U32
  {
    if read + i >= U32 {
      ModUnique(read + i - U32, cap, 0, read + i - U32);
    }
  }

  lemma NearbyDiffer(a: nat, b: nat, cap: nat)
    requires 0 < cap && a < b < a + cap
    ensures a % cap != b % cap
  {
    DivMod(a, cap);
    DivMod(b, cap);
    var d := b / cap - a / cap;
    assert d * cap == b - a + a % cap - b % cap;
    MultipleSize(d, cap);
  }

  /** Just below the wrap the slots count down from `U32 % cap`. */
  lemma BelowWrap(t: nat, cap: nat)
    requires 0 < cap < U32 && 1 <= t <= cap
    ensures t <= U32 % cap ==> (U32 - t) % cap == U32 % cap - t
    ensures t > U32 % cap ==> (U32 - t) % cap == cap + U32 % cap - t
  {
    DivMod(U32, cap);
    var q, m := U32 / cap, U32 % cap;
    if t <= m {
      ModUnique(U32 - t, cap, q, m - t);
    } else {
      assert (q - 1) * cap == q * cap - cap;
      ModUnique(U32 - t, cap, q - 1, cap + m - t);
    }
  }

  lemma SafeWindowDistinct(read: UInt32, n: nat, cap: nat, i: nat, j: nat)
    requires 0 < cap < U32 && i < j < n <= cap && WindowSafe(read, n, cap)
    ensures Wrapped(Offset(read, i), cap) != Wrapped(Offset(read, j), cap)
  {
    SlotInWindow(read, i, cap);
    SlotInWindow(read, j, cap);
    if read + j < U32 {
      NearbyDiffer(read + i, read + j, cap);
    } else if read + i < U32 {
      BelowWrap(U32 - (read + i), cap);
    }
  }

  /** An unsafe window has two live records on one slot. */
  lemma UnsafeWindowCollides(read: UInt32, n: nat, cap: nat) returns (i: nat, j: nat)
    requires 0 < cap < U32 && n <= cap && !WindowSafe(read, n, cap)
    ensures i < j < n && Wrapped(Offset(read, i), cap) == Wrapped(Offset(read, j), cap)
  {
    var a, m := U32 - read, U32 % cap;
    if a <= m {
      i, j := 0, a + (m - a);
      BelowWrap(a, cap);
    } else {
      i, j := a - m, a;
      BelowWrap(m, cap);
    }
    SlotInWindow(read, i, cap);
    SlotInWindow(read, j, cap);
  }

  /** When exactly the live records of a window sit on pairwise different slots. */
  lemma WindowDistinctIff(read: UInt32, n: nat, cap: nat)
    requires 0 < cap < U32 && n <= cap
    ensures WindowDistinct(read, n, cap) <==> WindowSafe(read, n, cap)
  {
    if WindowSafe(read, n, cap) {
      forall i, j | 0 <= i < j < n
        ensures Wrapped(Offset(read, i), cap) != Wrapped(Offset(read, j), cap)
      {
        SafeWindowDistinct(read, n, cap, i, j);
      }
    } else {
      var i, j := UnsafeWindowCollides(read, n, cap);
    }
  }

  function CeilDiv(a: nat, b: nat): nat
    requires 0 < b
  {
    (a + b - 1) / b
  }

  lemma DivUnique(x: nat, n: nat, q: int, s: nat)
    requires 0 < n && x == q * n + s && s < n
    ensures x / n == q
  {
    DivMod(x, n);
    assert (q - x / n) * n == x % n - s;
    MultipleSize(q - x / n, n);
  }

  /** `n` blocks suffice exactly when the rounded-up quotient is at most `n`. */
  lemma CeilDivLe(a: nat, b: nat, n: nat)
    requires 0 < b
    ensures CeilDiv(a, b) <= n <==> a <= n * b
  {
    var c := CeilDiv(a, b);
    DivMod(a + b - 1, b);
    MultipleSize(c - n, b);
    assert (c - n) * b == c * b - n * b;
    if c <= n {
      ScaleLe(c, n, b);
    }
  }

  /** The files of `cap` slots are numbered below the rounded-up quotient, and all are used. */
  lemma BelowCeil(slot: nat, cap: nat, epb: nat)
    requires 0 < epb && slot < cap
    ensures slot / epb <= (cap - 1) / epb == CeilDiv(cap, epb) - 1
  {
    DivMod(slot, epb);
    DivMod(cap - 1, epb);
    var q := (cap - 1) / epb;
    assert (q + 1) * epb == q * epb + epb;
    DivUnique(cap + epb - 1, epb, q + 1, (cap - 1) % epb);
    assert (slot / epb - q) * epb == (slot / epb) * epb - q * epb;
    MultipleSize(slot / epb - q, epb);
  }

  lemma ScaleLe(a: int, b: int, k: nat)
    requires a <= b
    ensures k * a <= k * b && a * k <= b * k
  {
  }

  /** Data files that `cap` slots can ever use. */
  function FilesNeeded(cap: nat, size: nat, block: nat): nat
    requires 0 < size <= block
  {
    FileFitsBlock(0, 1, size, block);
    CeilDiv(cap, block / size)
  }

  /** Blocks that the start-up check reserves for one type. */
  function BlocksReserved(cap: nat, size: nat, block: nat): nat
    requires 0 < block
  {
    CeilDiv(size * cap, block)
  }

  /** Every slot lives in one of the first `FilesNeeded` files, and the last of them is used. */
  lemma FileIndexBound(slot: nat, cap: nat, size: nat, block: nat)
    requires 0 < size <= block && slot < cap
    ensures 0 < block / size
    ensures FileIndex(block / size, slot) < FilesNeeded(cap, size, block)
    ensures FileIndex(block / size, cap - 1) == FilesNeeded(cap, size, block) - 1
  {
    FileFitsBlock(slot, cap, size, block);
    BelowCeil(slot, cap, block / size);
  }

  /** `FilesNeeded` blocks hold all the raw bytes, since each holds only whole records. */
  lemma FilesHoldAllBytes(cap: nat, size: nat, block: nat)
    requires 0 < size <= block && 0 < cap
    ensures size * cap <= FilesNeeded(cap, size, block) * block
    ensures block % size == 0 ==> (FilesNeeded(cap, size, block) - 1) * block < size * cap
  {
    FileFitsBlock(0, cap, size, block);
    DivMod(block, size);
    var epb, n := block / size, FilesNeeded(cap, size, block);
    CeilDivLe(cap, epb, n);
    CeilDivLe(cap, epb, n - 1);
    ScaleLe(cap, n * epb, size);
    assert size * (n * epb) == n * (epb * size);
    ScaleLe(epb * size, block, n);
    if block % size == 0 {
      ScaleLe((n - 1) * epb + 1, cap, size);
      assert size * ((n - 1) * epb + 1) == (n - 1) * (epb * size) + size;
    }
  }

  /** The start-up check never reserves more blocks than there are data files, and reserves enough
      exactly when the raw bytes of all records overflow all but one of those blocks. */
  lemma ReservedVersusNeeded(cap: nat, size: nat, block: nat)
    requires 0 < size <= block && 0 < cap
    ensures BlocksReserved(cap, size, block) <= FilesNeeded(cap, size, block)
    ensures BlocksReserved(cap, size, block) == FilesNeeded(cap, size, block)
       <==> (FilesNeeded(cap, size, block) - 1) * block < size * cap
    ensures block % size == 0 ==> BlocksReserved(cap, size, block) == FilesNeeded(cap, size, block)
  {
    var n := FilesNeeded(cap, size, block);
    FilesHoldAllBytes(cap, size, block);
    FileIndexBound(0, cap, size, block);
    CeilDivLe(size * cap, block, n);
    CeilDivLe(size * cap, block, n - 1);
  }

  /** Every one of those files is the file of some slot. */
  lemma EveryFileUsed(f: nat, cap: nat, size: nat, block: nat)
    requires 0 < size <= block && f < FilesNeeded(cap, size, block)
    ensures 0 < block / size
    ensures f * (block / size) < cap && FileIndex(block / size, f * (block / size)) == f
  {
    FileFitsBlock(0, 1, size, block);
    CeilDivLe(cap, block / size, f);
    DivUnique(f * (block / size), block / size, f, 0);
  }

  /** Metadata and the block that copy-on-write needs. */
  const SPARE_BLOCKS := 3

  /** Every record of every type fits a block. */
  ghost predicate AllFit(types: seq<DataType>, block: nat) {
    forall t :: 0 <= t < |types| ==> 0 < types[t].size <= block
  }

  /** `necessary_blocks` of verify_partition_size. */
  function BlocksChecked(types: seq<DataType>, cap: nat, block: nat): nat
    requires 0 < block
  {
    if types == [] then SPARE_BLOCKS
    else BlocksChecked(types[..|types| - 1], cap, block) + BlocksReserved(cap, types[|types| - 1].size, block)
  }

  /** The blocks that the files of all types can come to occupy. */
  ghost function BlocksUsed(types: seq<DataType>, cap: nat, block: nat): nat
    requires AllFit(types, block)
  {
    if types == [] then SPARE_BLOCKS
    else BlocksUsed(types[..|types| - 1], cap, block) + FilesNeeded(cap, types[|types| - 1].size, block)
  }

  /** The raw bytes of all records of a type overflow all but one of its files. */
  predicate FillsFiles(cap: nat, size: nat, block: nat)
    requires 0 < size <= block
  {
    (FilesNeeded(cap, size, block) - 1) * block < size * cap
  }

  lemma {:induction false} CheckedVersusUsed(types: seq<DataType>, cap: nat, block: nat)
    requires 0 < cap && 0 < block && AllFit(types, block)
    ensures BlocksChecked(types, cap, block) <= BlocksUsed(types, cap, block)
    ensures BlocksChecked(types, cap, block) == BlocksUsed(types, cap, block)
       <==> forall t :: 0 <= t < |types| ==> FillsFiles(cap, types[t].size, block)
  {
    if types != [] {
      var front, last := types[..|types| - 1], types[|types| - 1];
      assert types[|types| - 1].size <= block;
      CheckedVersusUsed(front, cap, block);
      ReservedVersusNeeded(cap, last.size, block);
      assert forall t :: 0 <= t < |front| ==> front[t] == types[t];
      hide BlocksReserved, FilesNeeded, FillsFiles;
      assert FillsFiles(cap, last.size, block) <==>
        BlocksReserved(cap, last.size, block) == FilesNeeded(cap, last.size, block) by {
        FillsIff(cap, last.size, block);
      }
    }
  }

  lemma FillsIff(cap: nat, size: nat, block: nat)
    requires 0 < size <= block && 0 < cap
    ensures FillsFiles(cap, size, block) <==> BlocksReserved(cap, size, block) == FilesNeeded(cap, size, block)
  {
    ReservedVersusNeeded(cap, size, block);
  }

  /** The start-up check guarantees room for all files, on every partition, exactly when each type's records
      fill all but one of its files. */
  lemma StartupCheckIff(types: seq<DataType>, cap: nat, block: nat)
    requires 0 < cap && 0 < block && AllFit(types, block)
    ensures (forall total: nat :: Passes(types, cap, block, total) ==> BlocksUsed(types, cap, block) <= total)
       <==> forall t :: 0 <= t < |types| ==> FillsFiles(cap, types[t].size, block)
  {
    CheckedVersusUsed(types, cap, block);
    assert Passes(types, cap, block, BlocksChecked(types, cap, block));
    hide BlocksChecked, BlocksUsed, FillsFiles;
  }

  /** The assertion of verify_partition_size, for a partition of `total` blocks. */
  predicate Passes(types: seq<DataType>, cap: nat, block: nat, total: nat)
    requires 0 < block
  {
    BlocksChecked(types, cap, block) <= total
  }

  /** It can pass on a partition with too few blocks: 256 records of 48 bytes, 85 to a block of 4096, take
      four files, and it counts three. */
  lemma ReservationCanFallShort(name: string, id: nat)
    ensures var types := [DataType(name, id, 48)];
            Passes(types, 256, 4096, 6) && BlocksUsed(types, 256, 4096) == 7
  {
    var types := [DataType(name, id, 48)];
    assert types[..0] == [];
    assert 4096 / 48 == 85;
    assert BlocksReserved(256, 48, 4096) == 3 && FilesNeeded(256, 48, 4096) == 4;
  }
}
