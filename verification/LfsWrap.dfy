/** The counters of a circular log over a long run: how far a type can be stored without a clear before
    records are lost at their 32-bit wrap. */
module LfsWrap {
  import opened Common
  import opened Slots
  import opened LfsLayout
  import opened LfsQueue
  import opened BoundedFifo

  /** A log that has just been created, and paths for all its files. */
  ghost predicate Fresh(files: Files, g: Geometry, ty: DataType) {
    && GeometryOk(g) && 0 < ty.size <= g.block
    && Consistent(files, g, ty) && HeaderOf(files, g, ty) == Header(0, 0)
    && forall k: nat :: Fits(g, SlotPath(g, ty, k))
  }

  ghost predicate Sized(recs: seq<Record>, size: nat) {
    forall i :: 0 <= i < |recs| ==> |recs[i]| == size
  }

  function Low(n: nat): UInt32 {
    n % U32
  }

  /** The counters after `n` stores. */
  function Counters(n: nat, cap: nat): Header {
    Header(Low(if n <= cap then 0 else n - cap), Low(n))
  }

  /** The files after storing all of `recs`. */
  ghost function Stored(files: Files, g: Geometry, ty: DataType, recs: seq<Record>): (r: Files)
    requires Fresh(files, g, ty) && Sized(recs, ty.size)
    ensures Consistent(r, g, ty)
    ensures HeaderOf(r, g, ty) == Counters(|recs|, g.cap)
    ensures |Queue(r, g, ty)| == Min(|recs|, g.cap)
  {
    if recs == [] then files
    else
      var n := |recs| - 1;
      var before := Stored(files, g, ty, recs[..n]);
      CountersStep(n, g.cap);
      StoreRecords(before, g, ty, recs[n]);
      CountersDistance(n + 1, g.cap);
      AfterStore(before, g, ty, recs[n])
  }

  lemma LowStep(n: nat)
    ensures Offset(Low(n), 1) == Low(n + 1)
  {
    DivMod(n, U32);
    var q := n / U32;
    ModUnique(n + 1, U32, if Low(n) + 1 == U32 then q + 1 else q, Offset(Low(n), 1));
  }

  lemma LowDistance(a: nat, b: nat)
    requires a <= b < a + U32
    ensures Distance(Low(a), Low(b)) == b - a
  {
    DivMod(a, U32);
    DivMod(b, U32);
    var d := b / U32 - a / U32;
    assert d * U32 == b - a + Low(a) - Low(b);
  }

  lemma CountersDistance(n: nat, cap: nat)
    requires 0 < cap < U32
    ensures Distance(Counters(n, cap).read, Counters(n, cap).write) == Min(n, cap)
  {
    LowDistance(if n <= cap then 0 else n - cap, n);
  }

  lemma CountersStep(n: nat, cap: nat)
    requires 0 < cap < U32
    ensures HeaderAfterStore(Counters(n, cap), cap) == Counters(n + 1, cap)
    ensures Distance(Counters(n, cap).read, Counters(n, cap).write) == Min(n, cap)
  {
    CountersDistance(n, cap);
    LowStep(n);
    if n >= cap {
      LowStep(n - cap);
    }
  }

  ghost predicate Faithful(files: Files, g: Geometry, ty: DataType, recs: seq<Record>)
    requires Fresh(files, g, ty) && Sized(recs, ty.size)
  {
    Queue(Stored(files, g, ty, recs), g, ty) == Newest(recs, g.cap)
  }

  /** No window is unsafe up to 2^32 stores, and the next one is safe exactly if the capacity divides 2^32. */
  lemma WindowAfter(n: nat, cap: nat)
    requires 0 < cap < U32 && n > 0
    ensures var h := Counters(n - 1, cap);
            && NextRead(h, cap) == Counters(n, cap).read && NextCount(h, cap) == Min(n, cap)
            && (n <= U32 || U32 % cap == 0 ==> WindowSafe(NextRead(h, cap), NextCount(h, cap), cap))
            && (n == U32 + 1 && U32 % cap != 0 ==> !WindowSafe(NextRead(h, cap), NextCount(h, cap), cap))
  {
    CountersStep(n - 1, cap);
    var first := if n <= cap then 0 else n - cap;
    if first < U32 {
      ModUnique(first, U32, 0, first);
    }
    DivMod(U32, cap);
    hide Low, HeaderAfterStore;
  }

  lemma LastStore(files: Files, g: Geometry, ty: DataType, recs: seq<Record>)
    requires Fresh(files, g, ty) && Sized(recs, ty.size) && recs != []
    ensures var n := |recs| - 1;
            var before := Stored(files, g, ty, recs[..n]);
            && CanStore(before, g, ty, recs[n])
            && Stored(files, g, ty, recs) == AfterStore(before, g, ty, recs[n])
            && HeaderOf(before, g, ty) == Counters(n, g.cap)
  {
  }

  lemma SafeStep(files: Files, g: Geometry, ty: DataType, recs: seq<Record>)
    requires Fresh(files, g, ty) && Sized(recs, ty.size) && recs != []
    requires Faithful(files, g, ty, recs[..|recs| - 1])
    requires |recs| <= U32 || U32 % g.cap == 0
    ensures Faithful(files, g, ty, recs)
  {
    hide Stored, Counters, WindowSafe, Consistent, CanStore, AfterStore, Fresh;
    var n := |recs| - 1;
    LastStore(files, g, ty, recs);
    FreshGeometry(files, g, ty);
    WindowAfter(n + 1, g.cap);
    PushKeepsNewest(recs[..n], recs[n], g.cap);
    assert recs[..n] + [recs[n]] == recs;
    StoreRefines(Stored(files, g, ty, recs[..n]), g, ty, recs[n]);
  }

  lemma UnsafeStep(files: Files, g: Geometry, ty: DataType, recs: seq<Record>)
    requires Fresh(files, g, ty) && Sized(recs, ty.size) && recs != []
    requires Faithful(files, g, ty, recs[..|recs| - 1])
    requires |recs| == U32 + 1 && U32 % g.cap != 0 && PairwiseDistinct(Newest(recs, g.cap))
    ensures !Faithful(files, g, ty, recs)
  {
    hide Stored, Counters, WindowSafe, Consistent, CanStore, AfterStore, Fresh;
    var n := |recs| - 1;
    LastStore(files, g, ty, recs);
    FreshGeometry(files, g, ty);
    WindowAfter(n + 1, g.cap);
    PushKeepsNewest(recs[..n], recs[n], g.cap);
    assert recs[..n] + [recs[n]] == recs;
    StoreRefinesIff(Stored(files, g, ty, recs[..n]), g, ty, recs[n]);
  }

  lemma FreshGeometry(files: Files, g: Geometry, ty: DataType)
    requires Fresh(files, g, ty)
    ensures GeometryOk(g) && 0 < g.cap < U32
  {
  }

  /** Up to 2^32 stores, or for ever if the capacity divides 2^32, the log holds the newest records. */
  lemma {:induction false} FaithfulBelowWrap(files: Files, g: Geometry, ty: DataType, recs: seq<Record>)
    requires Fresh(files, g, ty) && Sized(recs, ty.size)
    requires |recs| <= U32 || U32 % g.cap == 0
    ensures Faithful(files, g, ty, recs)
  {
    if recs != [] {
      FaithfulBelowWrap(files, g, ty, recs[..|recs| - 1]);
      SafeStep(files, g, ty, recs);
    }
  }

  /** At every point of the run. */
  ghost predicate AlwaysFaithful(files: Files, g: Geometry, ty: DataType, recs: seq<Record>)
    requires Fresh(files, g, ty) && Sized(recs, ty.size)
  {
    forall k :: 0 <= k <= |recs| ==> Faithful(files, g, ty, recs[..k])
  }

  /** A store-only run from an empty log, of records of which any `cap` in a row can be told apart, behaves
      as a bounded queue throughout exactly if it stores at most 2^32 of them or the capacity divides 2^32. */
  lemma FaithfulIff(files: Files, g: Geometry, ty: DataType, recs: seq<Record>)
    requires Fresh(files, g, ty) && Sized(recs, ty.size)
    requires forall k :: 0 <= k <= |recs| ==> PairwiseDistinct(Newest(recs[..k], g.cap))
    ensures AlwaysFaithful(files, g, ty, recs) <==> |recs| <= U32 || U32 % g.cap == 0
  {
    FreshGeometry(files, g, ty);
    hide Stored, Fresh, Faithful, PairwiseDistinct;
    if |recs| <= U32 || U32 % g.cap == 0 {
      forall k | 0 <= k <= |recs|
        ensures Faithful(files, g, ty, recs[..k])
      {
        FaithfulBelowWrap(files, g, ty, recs[..k]);
      }
    } else {
      UnfaithfulAtWrap(files, g, ty, recs);
    }
  }

  lemma UnfaithfulAtWrap(files: Files, g: Geometry, ty: DataType, recs: seq<Record>)
    requires Fresh(files, g, ty) && Sized(recs, ty.size)
    requires |recs| > U32 && U32 % g.cap != 0 && PairwiseDistinct(Newest(recs[..U32 + 1], g.cap))
    ensures !Faithful(files, g, ty, recs[..U32 + 1])
  {
    hide Stored, Fresh, Faithful, PairwiseDistinct;
    var first := recs[..U32 + 1];
    assert first[..|first| - 1] == recs[..U32];
    FaithfulBelowWrap(files, g, ty, recs[..U32]);
    UnsafeStep(files, g, ty, first);
  }

  /** Numbered records of any size from four bytes on. */
  function Numbered(i: nat, size: nat): (r: Record)
    requires size >= 4
    ensures |r| == size
  {
    Le32(Low(i)) + seq(size - 4, _ => 0)
  }

  lemma NumbersDiffer(i: nat, j: nat, size: nat)
    requires size >= 4 && i < j < i + U32
    ensures Numbered(i, size) != Numbered(j, size)
  {
    Le32RoundTrip(Low(i));
    Le32RoundTrip(Low(j));
    assert Numbered(i, size)[..4] == Le32(Low(i)) && Numbered(j, size)[..4] == Le32(Low(j));
    LowDistance(i, j);
  }

  /** The run that fails: 2^32 + 1 numbered records, with a capacity that does not divide 2^32. */
  lemma WrapLosesRecords(files: Files, g: Geometry, ty: DataType) returns (recs: seq<Record>)
    requires Fresh(files, g, ty) && ty.size >= 4 && U32 % g.cap != 0
    ensures |recs| == U32 + 1 && Sized(recs, ty.size) && !AlwaysFaithful(files, g, ty, recs)
  {
    recs := seq(U32 + 1, i requires 0 <= i < U32 + 1 => Numbered(i, ty.size));
    forall k | 0 <= k <= |recs|
      ensures PairwiseDistinct(Newest(recs[..k], g.cap))
    {
      var newest := Newest(recs[..k], g.cap);
      var from := k - |newest|;
      forall i, j | 0 <= i < j < |newest|
        ensures newest[i] != newest[j]
      {
        NumbersDiffer(from + i, from + j, ty.size);
      }
    }
    FaithfulIff(files, g, ty, recs);
  }
}
