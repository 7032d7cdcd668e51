/** Calls on the LittleFS backend, over all types at once: what they do to its files and counters, and over
    which runs its queues are bounded drop-oldest queues. */
module LfsCalls {
  import opened Common
  import opened BoundedFifo
  import opened Slots
  import opened LfsPaths
  import opened LfsLayout
  import opened LfsQueue

  ghost predicate AllWellSized(types: seq<DataType>, ops: seq<Op>) {
    forall i :: 0 <= i < |ops| ==> WellSized(types, ops[i])
  }

  /** Every record fits a block, and every path the backend can build fits its path buffer. */
  ghost predicate Provisioned(g: Geometry, types: seq<DataType>) {
    forall t :: 0 <= t < |types| ==>
      && 0 < types[t].size <= g.block && Fits(g, HeaderPath(g.mount, types[t].name))
      && forall f: nat ::
           Fits(g, DataPath(g.mount, types[t].name, f)) || f >= FilesNeeded(g.cap, types[t].size, g.block)
  }

  /** Files with which no call can fail. */
  ghost predicate Ready(files: Files, g: Geometry, types: seq<DataType>) {
    && GeometryOk(g) && Registered(types) && Provisioned(g, types)
    && (forall t :: 0 <= t < |types| ==> Consistent(files, g, types[t]))
    && (forall p :: p in files ==> Fits(g, p))
  }

  ghost function AllQueues(files: Files, g: Geometry, types: seq<DataType>): (qs: Queues)
    requires GeometryOk(g) && forall t :: 0 <= t < |types| ==> Consistent(files, g, types[t])
    ensures |qs| == |types|
  {
    seq(|types|, t requires 0 <= t < |types| => Queue(files, g, types[t]))
  }

  ghost function AllHeaders(files: Files, g: Geometry, types: seq<DataType>): (hs: seq<Header>)
    requires GeometryOk(g) && forall t :: 0 <= t < |types| ==> Consistent(files, g, types[t])
    ensures |hs| == |types|
  {
    seq(|types|, t requires 0 <= t < |types| =>
          assert Consistent(files, g, types[t]); HeaderOf(files, g, types[t]))
  }

  /** A call on one type keeps everything about another. */
  ghost predicate Kept(files: Files, files': Files, g: Geometry, ty: DataType)
    requires GeometryOk(g) && Consistent(files, g, ty)
  {
    && Consistent(files', g, ty)
    && Queue(files', g, ty) == Queue(files, g, ty) && HeaderOf(files', g, ty) == HeaderOf(files, g, ty)
  }

  lemma QueuesAreOk(files: Files, g: Geometry, types: seq<DataType>)
    requires Ready(files, g, types)
    ensures QueuesOk(types, g.cap, AllQueues(files, g, types))
  {
    forall t | 0 <= t < |types|
      ensures |Queue(files, g, types[t])| <= g.cap
      ensures forall i :: 0 <= i < |Queue(files, g, types[t])| ==> |Queue(files, g, types[t])[i]| == types[t].size
    {
      assert Consistent(files, g, types[t]);
    }
  }

  // ---- One call ----

  lemma SlotPathFits(g: Geometry, types: seq<DataType>, t: nat, offset: nat)
    requires GeometryOk(g) && Provisioned(g, types) && t < |types|
    ensures Fits(g, SlotPath(g, types[t], offset))
  {
    FileIndexBound(Wrapped(offset, g.cap), g.cap, types[t].size, g.block);
  }

  lemma HeaderUntouched(files: Files, g: Geometry, ty: DataType, data: Record, other: DataType)
    requires GeometryOk(g) && HeaderPresent(files, g, ty) && HeaderPresent(files, g, other) && other.name != ty.name
    ensures 0 < ty.size <= g.block ==>
              HeaderPresent(AfterStore(files, g, ty, data), g, other)
              && HeaderOf(AfterStore(files, g, ty, data), g, other) == HeaderOf(files, g, other)
    ensures HeaderPresent(AfterRetrieve(files, g, ty), g, other)
    ensures HeaderOf(AfterRetrieve(files, g, ty), g, other) == HeaderOf(files, g, other)
  {
    if HeaderPath(g.mount, ty.name) == HeaderPath(g.mount, other.name) {
      HeaderPathInjective(g.mount, ty.name, other.name);
    }
    if 0 < ty.size <= g.block {
      FileFitsBlock(0, 1, ty.size, g.block);
      DataIsNotHeader(g.mount, ty.name,
                      FileIndex(g.block / ty.size, Wrapped(HeaderOf(files, g, ty).write, g.cap)), other.name);
    }
  }

  lemma OtherKept(files: Files, g: Geometry, ty: DataType, data: Record, other: DataType)
    requires GeometryOk(g) && HeaderPresent(files, g, ty) && other.name != ty.name
    requires Consistent(files, g, other)
    ensures 0 < ty.size <= g.block && |data| == ty.size ==> Kept(files, AfterStore(files, g, ty, data), g, other)
    ensures Kept(files, AfterRetrieve(files, g, ty), g, other)
  {
    hide Queue, AfterStore, AfterRetrieve, HeaderOf;
    HeaderUntouched(files, g, ty, data, other);
    OtherTypesUntouched(files, g, ty, data, other);
  }

  /** The window that a store of type `t` leaves is safe. */
  ghost predicate CallSafe(cap: nat, hs: seq<Header>, op: Op)
    requires 0 < cap && (!op.Clear? ==> op.ty < |hs|)
  {
    op.Store? ==> WindowSafe(NextRead(hs[op.ty], cap), NextCount(hs[op.ty], cap), cap)
  }

  /** The counters after a call: they depend on the calls alone. */
  ghost function NextHeaders(cap: nat, hs: seq<Header>, op: Op): (hs': seq<Header>)
    requires !op.Clear? ==> op.ty < |hs|
    ensures |hs'| == |hs|
  {
    match op
    case Store(t, _) => hs[t := HeaderAfterStore(hs[t], cap)]
    case Retrieve(t) => if hs[t].read == hs[t].write then hs else hs[t := HeaderAfterRetrieve(hs[t])]
    case Clear => seq(|hs|, _ => Header(0, 0))
    case _ => hs
  }

  /** What a call does to the files. */
  ghost predicate Called(files: Files, g: Geometry, types: seq<DataType>, op: Op, files': Files)
    requires Ready(files, g, types) && WellSized(types, op)
  {
    match op
    case Store(t, data) => files' == AfterStore(files, g, types[t], data)
    case Retrieve(t) =>
      files' == if Queue(files, g, types[t]) == [] then files else AfterRetrieve(files, g, types[t])
    case Clear =>
      && Ready(files', g, types) && AllQueues(files', g, types) == seq(|types|, _ => [])
      && AllHeaders(files', g, types) == seq(|types|, _ => Header(0, 0))
    case _ => files' == files
  }

  /** What a call means: it keeps the files ready, moves the counters on, and does to the queues what it does
      to bounded queues if the window is safe, and only then if the new queue's records are distinct. */
  ghost predicate Meant(files: Files, g: Geometry, types: seq<DataType>, op: Op, files': Files)
    requires Ready(files, g, types) && WellSized(types, op)
  {
    var qs, hs := AllQueues(files, g, types), AllHeaders(files, g, types);
    var qs' := Apply(types, g.cap, qs, op).0;
    && Ready(files', g, types)
    && AllHeaders(files', g, types) == NextHeaders(g.cap, hs, op)
    && (CallSafe(g.cap, hs, op) ==> AllQueues(files', g, types) == qs')
    && (op.Store? && PairwiseDistinct(qs'[op.ty]) && AllQueues(files', g, types) == qs' ==> CallSafe(g.cap, hs, op))
  }

  /** Only type `t` has changed. */
  lemma OnlyMoved(files: Files, files': Files, g: Geometry, types: seq<DataType>, t: nat)
    requires Ready(files, g, types) && t < |types| && Consistent(files', g, types[t])
    requires forall p :: p in files' ==> Fits(g, p)
    requires forall u :: 0 <= u < |types| && u != t ==> Kept(files, files', g, types[u])
    ensures Ready(files', g, types)
    ensures AllQueues(files', g, types) == AllQueues(files, g, types)[t := Queue(files', g, types[t])]
    ensures AllHeaders(files', g, types) == AllHeaders(files, g, types)[t := HeaderOf(files', g, types[t])]
  {
    hide Consistent, Queue, HeaderOf, Fits, Provisioned;
  }

  /** One store, on its own type. */
  lemma OwnStore(files: Files, g: Geometry, types: seq<DataType>, t: nat, data: Record)
    requires Ready(files, g, types) && t < |types| && |data| == types[t].size
    ensures CanStore(files, g, types[t], data)
    ensures var files' := AfterStore(files, g, types[t], data);
            && Consistent(files', g, types[t])
            && HeaderOf(files', g, types[t]) == HeaderAfterStore(HeaderOf(files, g, types[t]), g.cap)
            && (forall p :: p in files' ==> Fits(g, p))
  {
    SlotPathFits(g, types, t, HeaderOf(files, g, types[t]).write);
    StoreRecords(files, g, types[t], data);
    hide Provisioned, Fits;
  }

  lemma StoreMeans(files: Files, g: Geometry, types: seq<DataType>, t: nat, data: Record)
    requires Ready(files, g, types) && t < |types| && |data| == types[t].size
    ensures CanStore(files, g, types[t], data)
    ensures Meant(files, g, types, Store(t, data), AfterStore(files, g, types[t], data))
  {
    hide AfterStore, Queue, WindowSafe, PairwiseDistinct, HeaderAfterStore, Push, HeaderOf, Kept, Fits, Provisioned;
    assert Consistent(files, g, types[t]);
    OwnStore(files, g, types, t, data);
    var files', h := AfterStore(files, g, types[t], data), HeaderOf(files, g, types[t]);
    forall u | 0 <= u < |types| && u != t
      ensures Kept(files, files', g, types[u])
    {
      OtherKept(files, g, types[t], data, types[u]);
    }
    hide Consistent;
    OnlyMoved(files, files', g, types, t);
    if WindowSafe(NextRead(h, g.cap), NextCount(h, g.cap), g.cap) {
      StoreRefines(files, g, types[t], data);
    } else if PairwiseDistinct(Push(Queue(files, g, types[t]), data, g.cap)) {
      StoreRefinesIff(files, g, types[t], data);
    }
  }

  lemma RetrieveMeans(files: Files, g: Geometry, types: seq<DataType>, t: nat)
    requires Ready(files, g, types) && t < |types| && Queue(files, g, types[t]) != []
    ensures Meant(files, g, types, Retrieve(t), AfterRetrieve(files, g, types[t]))
  {
    hide Queue, HeaderAfterRetrieve, HeaderOf, Kept, Provisioned;
    var files' := AfterRetrieve(files, g, types[t]);
    RetrieveRefines(files, g, types[t]);
    forall u | 0 <= u < |types| && u != t
      ensures Kept(files, files', g, types[u])
    {
      OtherKept(files, g, types[t], [], types[u]);
    }
    OnlyMoved(files, files', g, types, t);
  }

  /** Every call means what it should. */
  lemma CallMeans(files: Files, g: Geometry, types: seq<DataType>, op: Op, files': Files)
    requires Ready(files, g, types) && WellSized(types, op) && Called(files, g, types, op, files')
    ensures Meant(files, g, types, op, files')
  {
    hide Consistent, Queue, HeaderAfterStore, AfterStore, AfterRetrieve;
    match op
    case Store(t, data) => StoreMeans(files, g, types, t, data);
    case Retrieve(t) =>
      if Queue(files, g, types[t]) != [] {
        RetrieveMeans(files, g, types, t);
      }
    case _ =>
  }

  // ---- Runs ----

  ghost function HeadersAfter(cap: nat, hs: seq<Header>, ops: seq<Op>): (hs': seq<Header>)
    requires forall i :: 0 <= i < |ops| ==> !ops[i].Clear? ==> ops[i].ty < |hs|
    ensures |hs'| == |hs|
  {
    if ops == [] then hs
    else NextHeaders(cap, HeadersAfter(cap, hs, ops[..|ops| - 1]), ops[|ops| - 1])
  }

  /** Every store of a run leaves a safe window. */
  ghost predicate StoresSafe(cap: nat, hs: seq<Header>, ops: seq<Op>)
    requires 0 < cap
    requires forall i :: 0 <= i < |ops| ==> !ops[i].Clear? ==> ops[i].ty < |hs|
  {
    ops != [] ==>
      var before := ops[..|ops| - 1];
      StoresSafe(cap, hs, before) && CallSafe(cap, HeadersAfter(cap, hs, before), ops[|ops| - 1])
  }

  /** The files before, between and after the calls of a run. */
  ghost predicate Traced(g: Geometry, types: seq<DataType>, trace: seq<Files>, ops: seq<Op>) {
    && |trace| == |ops| + 1 && AllWellSized(types, ops)
    && (forall i :: 0 <= i < |trace| ==> Ready(trace[i], g, types))
    && forall i :: 0 <= i < |ops| ==> Called(trace[i], g, types, ops[i], trace[i + 1])
  }

  lemma TracedBefore(g: Geometry, types: seq<DataType>, trace: seq<Files>, ops: seq<Op>)
    requires Traced(g, types, trace, ops) && ops != []
    ensures Traced(g, types, trace[..|ops|], ops[..|ops| - 1])
  {
    hide Called, Ready;
  }

  lemma TracedNext(g: Geometry, types: seq<DataType>, trace: seq<Files>, ops: seq<Op>, op: Op, files: Files)
    requires Traced(g, types, trace, ops) && WellSized(types, op) && Called(trace[|ops|], g, types, op, files)
    requires Ready(files, g, types)
    ensures Traced(g, types, trace + [files], ops + [op])
  {
    hide Called, Ready;
  }

  /** Each call is answered as the queues it finds demand. */
  ghost predicate Answered(g: Geometry, types: seq<DataType>, trace: seq<Files>, ops: seq<Op>, replies: seq<Reply>)
    requires Traced(g, types, trace, ops)
  {
    && |replies| == |ops|
    && forall i :: 0 <= i < |ops| ==>
         replies[i] == Apply(types, g.cap, AllQueues(trace[i], g, types), ops[i]).1
  }

  /** At every point of the run the queues are what bounded drop-oldest queues would be. */
  ghost predicate AlwaysFaithful(g: Geometry, types: seq<DataType>, trace: seq<Files>, ops: seq<Op>)
    requires Traced(g, types, trace, ops)
    decreases |ops|
  {
    if ops == [] then true
    else
      TracedBefore(g, types, trace, ops);
      && AlwaysFaithful(g, types, trace[..|ops|], ops[..|ops| - 1])
      && AllQueues(trace[|ops|], g, types) == Replay(types, g.cap, AllQueues(trace[0], g, types), ops).0
  }

  lemma FaithfulAtEnd(g: Geometry, types: seq<DataType>, trace: seq<Files>, ops: seq<Op>)
    requires Traced(g, types, trace, ops) && AlwaysFaithful(g, types, trace, ops)
    ensures AllQueues(trace[|ops|], g, types) == Replay(types, g.cap, AllQueues(trace[0], g, types), ops).0
  {
    hide Called, Ready, AllQueues;
  }

  /** In a faithful run the replies are those of bounded queues. */
  lemma {:induction false} FaithfulReplies(g: Geometry, types: seq<DataType>, trace: seq<Files>, ops: seq<Op>,
                                           replies: seq<Reply>)
    requires Traced(g, types, trace, ops) && Answered(g, types, trace, ops, replies)
    requires AlwaysFaithful(g, types, trace, ops)
    ensures (AllQueues(trace[|ops|], g, types), replies) == Replay(types, g.cap, AllQueues(trace[0], g, types), ops)
    decreases |ops|
  {
    hide Called, Ready, AllQueues, Apply;
    FaithfulAtEnd(g, types, trace, ops);
    if ops != [] {
      var n := |ops| - 1;
      TracedBefore(g, types, trace, ops);
      assert Answered(g, types, trace[..n + 1], ops[..n], replies[..n]);
      FaithfulReplies(g, types, trace[..n + 1], ops[..n], replies[..n]);
      assert replies == replies[..n] + [replies[n]];
    }
  }

  /** Whatever is stored, the records a bounded queue would hold next can be told apart. */
  ghost predicate Distinguishable(types: seq<DataType>, cap: nat, qs: Queues, ops: seq<Op>)
    requires 0 < cap && |qs| == |types| && AllWellSized(types, ops)
    decreases |ops|
  {
    ops != [] ==>
      && Distinguishable(types, cap, qs, ops[..|ops| - 1])
      && (ops[|ops| - 1].Store? ==> PairwiseDistinct(Replay(types, cap, qs, ops).0[ops[|ops| - 1].ty]))
  }

  /** The counters follow the calls, faithful or not. */
  lemma {:induction false} HeadersFollow(g: Geometry, types: seq<DataType>, trace: seq<Files>, ops: seq<Op>)
    requires Traced(g, types, trace, ops)
    ensures AllHeaders(trace[|ops|], g, types) == HeadersAfter(g.cap, AllHeaders(trace[0], g, types), ops)
    decreases |ops|
  {
    hide AllHeaders, NextHeaders, Called, Ready, Replay;
    if ops != [] {
      var n := |ops| - 1;
      TracedBefore(g, types, trace, ops);
      HeadersFollow(g, types, trace[..n + 1], ops[..n]);
      CallMeans(trace[n], g, types, ops[n], trace[n + 1]);
    }
  }

  /** In a run whose stores are all safe the queues are faithful throughout. */
  lemma {:induction false} SafeRunIsFaithful(g: Geometry, types: seq<DataType>, trace: seq<Files>, ops: seq<Op>)
    requires Traced(g, types, trace, ops) && StoresSafe(g.cap, AllHeaders(trace[0], g, types), ops)
    ensures AlwaysFaithful(g, types, trace, ops)
    decreases |ops|
  {
    hide AllHeaders, NextHeaders, Called, Ready, Apply;
    if ops != [] {
      var n := |ops| - 1;
      TracedBefore(g, types, trace, ops);
      SafeRunIsFaithful(g, types, trace[..n + 1], ops[..n]);
      FaithfulAtEnd(g, types, trace[..n + 1], ops[..n]);
      HeadersFollow(g, types, trace[..n + 1], ops[..n]);
      CallMeans(trace[n], g, types, ops[n], trace[n + 1]);
    }
  }

  /** Over runs of any calls on any types, whose records can be told apart, the files hold what bounded
      drop-oldest queues would hold throughout, exactly if every store leaves a safe window. */
  lemma {:induction false} FaithfulIff(g: Geometry, types: seq<DataType>, trace: seq<Files>, ops: seq<Op>)
    requires Traced(g, types, trace, ops)
    requires Distinguishable(types, g.cap, AllQueues(trace[0], g, types), ops)
    ensures AlwaysFaithful(g, types, trace, ops) <==> StoresSafe(g.cap, AllHeaders(trace[0], g, types), ops)
    decreases |ops|
  {
    hide AllHeaders, NextHeaders, Called, Ready, WindowSafe, PairwiseDistinct, Apply;
    if ops != [] {
      var n := |ops| - 1;
      TracedBefore(g, types, trace, ops);
      FaithfulIff(g, types, trace[..n + 1], ops[..n]);
      if AlwaysFaithful(g, types, trace[..n + 1], ops[..n]) {
        FaithfulAtEnd(g, types, trace[..n + 1], ops[..n]);
      }
      HeadersFollow(g, types, trace[..n + 1], ops[..n]);
      CallMeans(trace[n], g, types, ops[n], trace[n + 1]);
    }
  }

  // ---- Runs from an empty partition that are safe ----

  ghost function Zeros(n: nat): (hs: seq<Header>)
    ensures |hs| == n
  {
    seq(n, _ => Header(0, 0))
  }

  function Empties(n: nat): (qs: Queues)
    ensures |qs| == n
  {
    seq(n, _ => [])
  }

  /** The counters of every type differ by the length of its queue. */
  ghost predicate CountersMatch(cap: nat, hs: seq<Header>, qs: Queues) {
    |hs| == |qs| && forall t :: 0 <= t < |qs| ==> Distance(hs[t].read, hs[t].write) == |qs[t]| <= cap
  }

  lemma CountersStayMatched(types: seq<DataType>, cap: nat, hs: seq<Header>, qs: Queues, op: Op)
    requires 0 < cap < U32 && CountersMatch(cap, hs, qs) && |qs| == |types| && WellSized(types, op)
    ensures CountersMatch(cap, NextHeaders(cap, hs, op), Apply(types, cap, qs, op).0)
    ensures op.Store? ==> NextCount(hs[op.ty], cap) == |Apply(types, cap, qs, op).0[op.ty]|
  {
    if !op.Clear? {
      DistanceAfterStore(hs[op.ty], cap);
      if hs[op.ty].read != hs[op.ty].write {
        DistanceAfterRetrieve(hs[op.ty]);
      }
    }
  }

  lemma {:induction false} CountersMatched(types: seq<DataType>, cap: nat, ops: seq<Op>)
    requires 0 < cap < U32 && AllWellSized(types, ops)
    ensures CountersMatch(cap, HeadersAfter(cap, Zeros(|types|), ops), Replay(types, cap, Empties(|types|), ops).0)
  {
    hide NextHeaders, Apply;
    if ops != [] {
      var n := |ops| - 1;
      CountersMatched(types, cap, ops[..n]);
      CountersStayMatched(types, cap, HeadersAfter(cap, Zeros(|types|), ops[..n]),
                          Replay(types, cap, Empties(|types|), ops[..n]).0, ops[n]);
    }
  }

  /** No queue is ever left longer than the remainder. */
  ghost predicate StaysShort(types: seq<DataType>, cap: nat, ops: seq<Op>)
    requires 0 < cap && AllWellSized(types, ops)
  {
    ops != [] ==>
      && StaysShort(types, cap, ops[..|ops| - 1])
      && forall t :: 0 <= t < |types| ==> |Replay(types, cap, Empties(|types|), ops).0[t]| <= U32 % cap
  }

  lemma ShortWindow(h: Header, cap: nat)
    requires 0 < cap < U32 && NextCount(h, cap) <= U32 % cap
    ensures WindowSafe(NextRead(h, cap), NextCount(h, cap), cap)
  {
  }

  lemma ShortCallIsSafe(types: seq<DataType>, cap: nat, hs: seq<Header>, qs: Queues, op: Op)
    requires 0 < cap < U32 && CountersMatch(cap, hs, qs) && |qs| == |types| && WellSized(types, op)
    requires forall t :: 0 <= t < |types| ==> |Apply(types, cap, qs, op).0[t]| <= U32 % cap
    ensures CallSafe(cap, hs, op)
  {
    hide WindowSafe, NextRead, NextCount, Apply;
    CountersStayMatched(types, cap, hs, qs, op);
    if op.Store? {
      ShortWindow(hs[op.ty], cap);
    }
  }

  /** A consumer that never lets more than the remainder wait takes the log through the wrap unharmed. */
  lemma {:induction false} ShortQueuesAreSafe(types: seq<DataType>, cap: nat, ops: seq<Op>)
    requires 0 < cap < U32 && AllWellSized(types, ops) && StaysShort(types, cap, ops)
    ensures StoresSafe(cap, Zeros(|types|), ops)
  {
    hide HeadersAfter, Apply, CallSafe, Zeros, Empties;
    if ops != [] {
      var n := |ops| - 1;
      ShortQueuesAreSafe(types, cap, ops[..n]);
      CountersMatched(types, cap, ops[..n]);
      var qs := Replay(types, cap, Empties(|types|), ops[..n]).0;
      assert Replay(types, cap, Empties(|types|), ops).0 == Apply(types, cap, qs, ops[n]).0;
      ShortCallIsSafe(types, cap, HeadersAfter(cap, Zeros(|types|), ops[..n]), qs, ops[n]);
    }
  }

  /** How many records of type `t` have been stored since the last clear. */
  function StoresSince(ops: seq<Op>, t: nat): nat {
    if ops == [] || ops[|ops| - 1].Clear? then 0
    else StoresSince(ops[..|ops| - 1], t) + if ops[|ops| - 1].Store? && ops[|ops| - 1].ty == t then 1 else 0
  }

  /** Counters that have not wrapped. */
  ghost predicate Unwrapped(h: Header, cap: nat, stored: nat) {
    stored < U32 ==> h.write == stored && h.read <= stored <= h.read + cap
  }

  lemma StaysUnwrapped(types: seq<DataType>, cap: nat, hs: seq<Header>, op: Op, ops: seq<Op>, t: nat)
    requires 0 < cap < U32 && WellSized(types, op) && |hs| == |types| && t < |types|
    requires Unwrapped(hs[t], cap, StoresSince(ops, t))
    ensures Unwrapped(NextHeaders(cap, hs, op)[t], cap, StoresSince(ops + [op], t))
  {
    assert (ops + [op])[..|ops|] == ops;
  }

  lemma {:induction false} StayUnwrapped(types: seq<DataType>, cap: nat, ops: seq<Op>, t: nat)
    requires 0 < cap < U32 && AllWellSized(types, ops) && t < |types|
    ensures Unwrapped(HeadersAfter(cap, Zeros(|types|), ops)[t], cap, StoresSince(ops, t))
  {
    if ops != [] {
      var n := |ops| - 1;
      hide Unwrapped, NextHeaders, StoresSince;
      StayUnwrapped(types, cap, ops[..n], t);
      StaysUnwrapped(types, cap, HeadersAfter(cap, Zeros(|types|), ops[..n]), ops[n], ops[..n], t);
      assert ops[..n] + [ops[n]] == ops;
    }
  }

  /** The counter wrap does no harm: between two clears no type stores more than 2^32 records, or
      RECORDS_PER_TYPE divides 2^32. */
  ghost predicate WrapHarmless(cap: nat, types: seq<DataType>, ops: seq<Op>)
    requires 0 < cap
  {
    || U32 % cap == 0
    || forall i, t :: 0 <= i <= |ops| && 0 <= t < |types| ==> StoresSince(ops[..i], t) <= U32
  }

  lemma UnwrappedIsSafe(h: Header, cap: nat, stored: nat)
    requires 0 < cap < U32 && stored < U32 && Unwrapped(h, cap, stored)
    ensures WindowSafe(NextRead(h, cap), NextCount(h, cap), cap)
  {
    SafeBelowWrap(h, cap);
  }

  lemma {:induction false} WrapHarmlessIsSafe(types: seq<DataType>, cap: nat, ops: seq<Op>)
    requires 0 < cap < U32 && AllWellSized(types, ops) && WrapHarmless(cap, types, ops)
    ensures StoresSafe(cap, Zeros(|types|), ops)
  {
    hide HeadersAfter, NextRead, NextCount, Zeros, Unwrapped;
    if ops != [] {
      var n := |ops| - 1;
      assert forall i :: 0 <= i <= n ==> ops[..n][..i] == ops[..i];
      WrapHarmlessIsSafe(types, cap, ops[..n]);
      if ops[n].Store? && U32 % cap != 0 {
        var t := ops[n].ty;
        assert ops[..|ops|] == ops;
        assert StoresSince(ops, t) == StoresSince(ops[..n], t) + 1;
        StayUnwrapped(types, cap, ops[..n], t);
        UnwrappedIsSafe(HeadersAfter(cap, Zeros(|types|), ops[..n])[t], cap, StoresSince(ops[..n], t));
      }
    }
  }
}
