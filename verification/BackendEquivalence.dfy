/** The two backends are interchangeable: the same calls get the same replies from both. */
module BackendEquivalence {
  import opened Common
  import opened BoundedFifo
  import opened LfsCalls
  import opened LfsFiles
  import opened LfsLayout
  import opened LfsQueue
  import RamBackend
  import LfsBackend
  import LfsWrap

  lemma ReplayStep(types: seq<DataType>, cap: nat, qs: Queues, ops: seq<Op>, i: nat)
    requires 0 < cap && |qs| == |types| && i < |ops| && AllWellSized(types, ops)
    ensures var (before, replies) := Replay(types, cap, qs, ops[..i]);
            var (after, reply) := Apply(types, cap, before, ops[i]);
            Replay(types, cap, qs, ops[..i + 1]) == (after, replies + [reply])
  {
    assert ops[..i + 1][..i] == ops[..i];
  }

  /** The RAM backend answers every sequence of calls as bounded drop-oldest queues do. */
  method ReplayRam(ram: RamBackend.RamBackend, ops: seq<Op>) returns (replies: seq<Reply>)
    requires ram.Valid() && ram.Initialized() && |ram.types| > 0
    requires AllWellSized(ram.types, ops)
    modifies ram`queues, ram.rings, set r | r in ram.rings :: r.data
    ensures ram.Valid() && ram.Initialized()
    ensures (ram.queues, replies) == Replay(ram.types, ram.cap, old(ram.queues), ops)
  {
    replies := [];
    for i := 0 to |ops|
      invariant ram.Valid() && ram.Initialized()
      invariant (ram.queues, replies) == Replay(ram.types, ram.cap, old(ram.queues), ops[..i])
    {
      ReplayStep(ram.types, ram.cap, old(ram.queues), ops, i);
      var reply := CallRam(ram, ops[i]);
      replies := replies + [reply];
    }
    assert ops[..|ops|] == ops;
  }

  method CallRam(ram: RamBackend.RamBackend, op: Op) returns (reply: Reply)
    requires ram.Valid() && ram.Initialized() && |ram.types| > 0 && WellSized(ram.types, op)
    modifies ram`queues, ram.rings, set r | r in ram.rings :: r.data
    ensures ram.Valid() && ram.Initialized()
    ensures (ram.queues, reply) == Apply(ram.types, ram.cap, old(ram.queues), op)
  {
    if !op.Clear? {
      IndexOfAt(ram.types, op.ty);
    }
    var code, data := 0, [];
    match op {
      case Store(t, bytes) => code := ram.Store(ram.types[t], bytes);
      case PeekSize(t) => code, data := ram.Peek(ram.types[t], None);
      case Peek(t) => code, data := ram.Peek(ram.types[t], Some(ram.types[t].size));
      case Retrieve(t) => code, data := ram.Retrieve(ram.types[t], Some(ram.types[t].size));
      case Count(t) => code := ram.Count(ram.types[t]);
      case Clear => code := ram.Clear();
    }
    reply := Reply(code, data);
  }

  method ClearLfs(lfs: LfsBackend.LfsBackend) returns (code: int)
    requires lfs.Valid() && Ready(lfs.fs.files, lfs.g, lfs.types)
    modifies lfs.fs
    ensures code == 0 && lfs.Valid()
    ensures Called(old(lfs.fs.files), lfs.g, lfs.types, Clear, lfs.fs.files)
    ensures AllBounded(old(lfs.fs.files), lfs.g, lfs.types) ==> AllBounded(lfs.fs.files, lfs.g, lfs.types)
  {
    hide AllBounded, Queue, Provisioned;
    code := lfs.Clear();
  }

  /** One call; whatever the counters, it does to the files what it should, and while the windows are safe
      to the queues, with the reply of bounded queues. */
  method CallLfs(lfs: LfsBackend.LfsBackend, op: Op) returns (reply: Reply)
    requires lfs.Valid() && Ready(lfs.fs.files, lfs.g, lfs.types) && WellSized(lfs.types, op)
    modifies lfs.fs
    ensures lfs.Valid() && Ready(lfs.fs.files, lfs.g, lfs.types)
    ensures Called(old(lfs.fs.files), lfs.g, lfs.types, op, lfs.fs.files)
    ensures reply == Apply(lfs.types, lfs.g.cap, old(AllQueues(lfs.fs.files, lfs.g, lfs.types)), op).1
    ensures AllBounded(old(lfs.fs.files), lfs.g, lfs.types) ==> AllBounded(lfs.fs.files, lfs.g, lfs.types)
  {
    hide AllBounded, Queue, AfterStore, AfterRetrieve, Consistent, Provisioned, Fits;
    ghost var before := lfs.fs.files;
    QueuesAreOk(before, lfs.g, lfs.types);
    var code, data := 0, [];
    match op {
      case Store(t, bytes) =>
        StoreMeans(before, lfs.g, lfs.types, t, bytes);
        code := lfs.Store(lfs.types[t], bytes);
      case PeekSize(t) => code, data := lfs.Peek(lfs.types[t], None);
      case Peek(t) => code, data := lfs.Peek(lfs.types[t], Some(lfs.types[t].size));
      case Retrieve(t) =>
        code, data := lfs.Retrieve(lfs.types[t], Some(lfs.types[t].size));
        CallMeans(before, lfs.g, lfs.types, op, lfs.fs.files);
      case Count(t) => code := lfs.Count(lfs.types[t]);
      case Clear => code := ClearLfs(lfs);
    }
    reply := Reply(code, data);
  }

  /** Any calls at all: the files follow them, each reply is what the queues found at that moment demand, and no
      data file leaves its bounds. */
  method ReplayLfs(lfs: LfsBackend.LfsBackend, ops: seq<Op>) returns (replies: seq<Reply>, ghost trace: seq<Files>)
    requires lfs.Valid() && Ready(lfs.fs.files, lfs.g, lfs.types) && AllWellSized(lfs.types, ops)
    modifies lfs.fs
    ensures lfs.Valid()
    ensures Traced(lfs.g, lfs.types, trace, ops) && Answered(lfs.g, lfs.types, trace, ops, replies)
    ensures trace[0] == old(lfs.fs.files) && trace[|ops|] == lfs.fs.files
    ensures AllBounded(trace[0], lfs.g, lfs.types) ==> AllBounded(lfs.fs.files, lfs.g, lfs.types)
  {
    hide AllBounded, Ready, Called, AllQueues;
    replies, trace := [], [lfs.fs.files];
    for i := 0 to |ops|
      invariant lfs.Valid() && Ready(lfs.fs.files, lfs.g, lfs.types)
      invariant Traced(lfs.g, lfs.types, trace, ops[..i]) && Answered(lfs.g, lfs.types, trace, ops[..i], replies)
      invariant trace[0] == old(lfs.fs.files) && trace[i] == lfs.fs.files
      invariant AllBounded(trace[0], lfs.g, lfs.types) ==> AllBounded(lfs.fs.files, lfs.g, lfs.types)
    {
      var reply := CallLfs(lfs, ops[i]);
      TracedNext(lfs.g, lfs.types, trace, ops[..i], ops[i], lfs.fs.files);
      assert ops[..i] + [ops[i]] == ops[..i + 1];
      replies, trace := replies + [reply], trace + [lfs.fs.files];
    }
    assert ops[..|ops|] == ops;
  }

  /** Started empty, the RAM backend answers as the queues do. */
  method FromEmptyRam(types: seq<DataType>, cap: nat, ops: seq<Op>) returns (replies: seq<Reply>)
    requires 0 < cap && Registered(types) && |types| > 0 && AllWellSized(types, ops)
    ensures replies == Replay(types, cap, Empties(|types|), ops).1
  {
    var ram := new RamBackend.RamBackend(types, cap);
    var err := ram.Init();
    replies := ReplayRam(ram, ops);
  }

  /** The LittleFS backend starts on an empty partition. */
  method StartLfs(types: seq<DataType>, g: Geometry) returns (lfs: LfsBackend.LfsBackend)
    requires GeometryOk(g) && Registered(types) && Provisioned(g, types)
    ensures fresh(lfs) && fresh(lfs.fs) && lfs.g == g && lfs.types == types && lfs.Valid()
    ensures Ready(lfs.fs.files, g, types) && AllBounded(lfs.fs.files, g, types)
    ensures AllHeaders(lfs.fs.files, g, types) == Zeros(|types|)
    ensures AllQueues(lfs.fs.files, g, types) == Empties(|types|)
    ensures forall t :: 0 <= t < |types| ==> LfsWrap.Fresh(lfs.fs.files, g, types[t])
  {
    var fs := new LfsBackend.FileSystem(map[]);
    lfs := new LfsBackend.LfsBackend(fs, g, types);
    var err := lfs.InitHeaderFiles();
    forall t, k: nat | 0 <= t < |types|
      ensures Fits(g, SlotPath(g, types[t], k))
    {
      SlotPathFits(g, types, t, k);
    }
  }

  /** Run from there, it answers as the queues do while its stores are safe; and if the records can be told
      apart it holds what they hold throughout exactly if they all are. */
  method FromEmptyLfs(types: seq<DataType>, g: Geometry, ops: seq<Op>)
    returns (replies: seq<Reply>, ghost trace: seq<Files>)
    requires GeometryOk(g) && Registered(types) && Provisioned(g, types)
    requires AllWellSized(types, ops)
    ensures Traced(g, types, trace, ops) && Answered(g, types, trace, ops, replies)
    ensures AllBounded(trace[|ops|], g, types)
    ensures StoresSafe(g.cap, Zeros(|types|), ops) ==> replies == Replay(types, g.cap, Empties(|types|), ops).1
    ensures Distinguishable(types, g.cap, Empties(|types|), ops) ==>
              (AlwaysFaithful(g, types, trace, ops) <==> StoresSafe(g.cap, Zeros(|types|), ops))
  {
    hide Ready, Called, AllBounded, AllQueues, AllHeaders, StoresSafe, Distinguishable, AlwaysFaithful, Provisioned,
        Traced, Answered;
    var lfs := StartLfs(types, g);
    replies, trace := ReplayLfs(lfs, ops);
    if StoresSafe(g.cap, Zeros(|types|), ops) {
      SafeRunIsFaithful(g, types, trace, ops);
      FaithfulReplies(g, types, trace, ops, replies);
    }
    if Distinguishable(types, g.cap, Empties(|types|), ops) {
      FaithfulIff(g, types, trace, ops);
    }
  }

  /** Started empty, both backends give the same replies to any calls whose stores leave safe windows. */
  method BackendsAgree(types: seq<DataType>, g: Geometry, ops: seq<Op>) returns (ram: seq<Reply>, lfs: seq<Reply>)
    requires GeometryOk(g) && Registered(types) && |types| > 0
    requires Provisioned(g, types)
    requires AllWellSized(types, ops) && StoresSafe(g.cap, Zeros(|types|), ops)
    ensures ram == lfs == Replay(types, g.cap, Empties(|types|), ops).1
  {
    ram := FromEmptyRam(types, g.cap, ops);
    ghost var trace;
    lfs, trace := FromEmptyLfs(types, g, ops);
  }
}
