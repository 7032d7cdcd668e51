/** The abstract behaviour that storage_backend.h promises: for every data type a queue of at most
    `cap` records that drops its oldest record to make room for a new one. */
module BoundedFifo {
  import opened Common

  /** The newest `n` elements of a history. */
  function Newest<T>(history: seq<T>, n: nat): seq<T> {
    if |history| <= n then history else history[|history| - n..]
  }

  function Push<T>(q: seq<T>, x: T, cap: nat): seq<T>
    requires 0 < cap
  {
    if |q| < cap then q + [x] else q[1..] + [x]
  }

  /** Pushing keeps exactly the newest `cap` elements of everything ever pushed. */
  lemma PushKeepsNewest<T>(history: seq<T>, x: T, cap: nat)
    requires 0 < cap
    ensures Push(Newest(history, cap), x, cap) == Newest(history + [x], cap)
  {
  }

  /** One call through the backend's function table. The data type is named by its position in the
      section of registered types. Callers pass records and buffers of the type's size. */
  datatype Op =
    | Store(ty: nat, data: Record)
    | PeekSize(ty: nat)
    | Peek(ty: nat)
    | Retrieve(ty: nat)
    | Count(ty: nat)
    | Clear

  /** What the caller gets back: the return code, and the bytes copied to its buffer. */
  datatype Reply = Reply(code: int, data: Record)

  type Queues = seq<seq<Record>>

  ghost predicate WellSized(types: seq<DataType>, op: Op) {
    && (!op.Clear? ==> op.ty < |types|)
    && (op.Store? ==> |op.data| == types[op.ty].size)
  }

  ghost predicate QueuesOk(types: seq<DataType>, cap: nat, qs: Queues) {
    && |qs| == |types|
    && forall t :: 0 <= t < |qs| ==>
         && |qs[t]| <= cap
         && forall i :: 0 <= i < |qs[t]| ==> |qs[t][i]| == types[t].size
  }

  function Apply(types: seq<DataType>, cap: nat, qs: Queues, op: Op): (r: (Queues, Reply))
    requires 0 < cap && |qs| == |types|
    requires !op.Clear? ==> op.ty < |types|
    ensures |r.0| == |types|
  {
    match op
    case Store(t, data) => (qs[t := Push(qs[t], data, cap)], Reply(0, []))
    case PeekSize(t) =>
      if qs[t] == [] then (qs, Reply(-EAGAIN, [])) else (qs, Reply(types[t].size, []))
    case Peek(t) =>
      if qs[t] == [] then (qs, Reply(-EAGAIN, [])) else (qs, Reply(|qs[t][0]|, qs[t][0]))
    case Retrieve(t) =>
      if qs[t] == [] then (qs, Reply(-EAGAIN, []))
      else (qs[t := qs[t][1..]], Reply(|qs[t][0]|, qs[t][0]))
    case Count(t) => (qs, Reply(|qs[t]|, []))
    case Clear => (seq(|types|, _ => []), Reply(0, []))
  }

  /** The replies to a whole sequence of calls, and the queues they leave behind. */
  function Replay(types: seq<DataType>, cap: nat, qs: Queues, ops: seq<Op>): (r: (Queues, seq<Reply>))
    requires 0 < cap && |qs| == |types|
    requires forall op :: op in ops ==> !op.Clear? ==> op.ty < |types|
    ensures |r.0| == |types| && |r.1| == |ops|
  {
    if ops == [] then (qs, [])
    else
      var (qs1, rest) := Replay(types, cap, qs, ops[..|ops| - 1]);
      var (qs2, reply) := Apply(types, cap, qs1, ops[|ops| - 1]);
      (qs2, rest + [reply])
  }

  /** Bounded queues of correctly sized records stay so, whatever is called. */
  lemma ApplyKeepsQueuesOk(types: seq<DataType>, cap: nat, qs: Queues, op: Op)
    requires 0 < cap && QueuesOk(types, cap, qs) && WellSized(types, op)
    ensures QueuesOk(types, cap, Apply(types, cap, qs, op).0)
  {
  }

  /** The records of type `t` that a sequence of calls stores. */
  function Stored(ops: seq<Op>, t: nat): seq<Record> {
    if ops == [] then []
    else
      var op := ops[|ops| - 1];
      Stored(ops[..|ops| - 1], t) + if op.Store? && op.ty == t then [op.data] else []
  }

  ghost predicate OnlyStores(ops: seq<Op>) {
    forall op :: op in ops ==> !op.Clear? && !op.Retrieve?
  }

  /** With no consumer, a queue ends up holding the newest `cap` records of its type, in order. */
  lemma {:induction false} StoresKeepNewest(types: seq<DataType>, cap: nat, ops: seq<Op>, t: nat)
    requires 0 < cap && t < |types| && OnlyStores(ops)
    requires forall op :: op in ops ==> op.ty < |types|
    ensures Replay(types, cap, seq(|types|, _ => []), ops).0[t] == Newest(Stored(ops, t), cap)
  {
    if ops != [] {
      var before := ops[..|ops| - 1];
      StoresKeepNewest(types, cap, before, t);
      var op := ops[|ops| - 1];
      assert op in ops;
      if op.Store? && op.ty == t {
        PushKeepsNewest(Stored(before, t), op.data, cap);
      } else {
        assert Stored(before, t) + [] == Stored(before, t);
      }
    }
  }
}
