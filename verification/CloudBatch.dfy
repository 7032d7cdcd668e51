/** The cloud module reading a batch through the storage module's interface. */
module CloudBatch {
  import opened Common
  import opened Framing
  import opened Packing
  import opened StorageSpec
  import Drain
  import Storage

  /** `handle_storage_batch_available`: reads frames until none is left, sends each to the cloud service,
      then asks for more or closes the session. */
  method HandleBatchAvailable(storage: Storage.Storage, msg: StorageMsg)
    returns (sent: seq<Frame>, answer: seq<StorageMsg>)
    requires storage.Valid() && msg.BatchAvailable?
    modifies storage`items, storage.pipe
    ensures storage.Valid()
    ensures sent == Storage.WireAll(storage.c, old(storage.items))
    ensures Storage.EnumeratorsFit(storage.c) ==>
              forall t :: 0 <= t < |storage.c.types| ==>
                DataUnder(sent, storage.c.types[t].id) == OfType(old(storage.items), t)
    ensures storage.State() == old(storage.State()).(pipe := [])
    ensures answer == Drain.Answer(msg)
  {
    hide Storage.EnumeratorsFit, DataUnder, OfType, Storage.ItemsOk, Storage.Wire, Storage.WireAll, ConfigOk, Encodes,
        Registered, TypesBelow;
    ghost var all := storage.items;
    sent := [];
    WireStart(storage.c, all);
    var sessionError, ret := false, 0;
    while !sessionError
      invariant storage.Valid() && !sessionError
      invariant |sent| <= |all| && storage.items == all[|sent|..]
      invariant sent == Storage.WireAll(storage.c, all)[..|sent|]
      decreases |storage.items|
    {
      var item;
      ret, item := storage.BatchRead();
      if ret == -EAGAIN {
        break;
      } else if ret != 0 {
        sessionError := true;
        continue;
      }
      WireNext(storage.c, all, |sent|);
      sent := sent + [item];
    }
    WireEnd(storage.c, all);
    AllSorted(storage.c, all);
    if !sessionError && msg.more {
      return sent, [BatchRequest(msg.id)];
    }
    return sent, [BatchClose(msg.id)];
  }

  lemma WireStart(c: Config, all: seq<Item<Record>>)
    requires Storage.ItemsOk(c, all)
    ensures TypesBelow(all, |c.types|) && all == all[0..] && [] == Storage.WireAll(c, all)[..0]
  {
  }

  lemma WireNext(c: Config, all: seq<Item<Record>>, n: nat)
    requires Storage.ItemsOk(c, all) && n < |all|
    ensures all[n].ty < |c.types| && all[n..][0] == all[n] && all[n..][1..] == all[n + 1..]
    ensures var wire := Storage.WireAll(c, all);
            |wire| == |all| && wire[..n] + [Storage.Wire(c, all[n])] == wire[..n + 1]
  {
  }

  lemma WireEnd(c: Config, all: seq<Item<Record>>)
    requires Storage.ItemsOk(c, all)
    ensures var wire := Storage.WireAll(c, all); |wire| == |all| && wire[..|all|] == wire
  {
  }

  lemma AllSorted(c: Config, all: seq<Item<Record>>)
    requires TypesBelow(all, |c.types|)
    ensures Storage.EnumeratorsFit(c) ==>
              forall t :: 0 <= t < |c.types| ==> DataUnder(Storage.WireAll(c, all), c.types[t].id) == OfType(all, t)
  {
    if Storage.EnumeratorsFit(c) {
      forall t | 0 <= t < |c.types|
        ensures DataUnder(Storage.WireAll(c, all), c.types[t].id) == OfType(all, t)
      {
        Storage.WireSorts(c, all, t);
      }
    }
  }

  // ---- A whole exchange ----

  /** What the cloud module sends in one turn. */
  ghost function SentIn(c: Config, s: Drain.System<Record>, turn: Drain.Turn): seq<Frame>
    requires TypesBelow(s.store.pipe, |c.types|) && Drain.Enabled(s, turn)
  {
    if turn == Drain.CloudTurn && s.toCloud[0].BatchAvailable? then Storage.WireAll(c, s.store.pipe) else []
  }

  lemma TurnKeepsTypes(c: Config, s: Drain.System<Record>, turn: Drain.Turn)
    requires 0 < c.cap && |s.store.queues| == |c.types| && Drain.Enabled(s, turn)
    requires TypesBelow(s.store.pipe, |c.types|)
    ensures TypesBelow(Drain.Take(c, s, turn).store.pipe, |c.types|)
  {
    hide Step, Pack, TypesBelow, Drain.Published;
    PackBudget(c, s.store.queues);
    assert TypesBelow<Record>([], |c.types|) by { NoItems(|c.types|); }
    if turn == Drain.StoreTurn {
      StepPipe(c, s.store, Channel(s.toStore[0]));
    }
  }

  lemma NoItems(n: nat)
    ensures TypesBelow<Record>([], n)
  {
  }

  /** A message leaves the pipe as it is, empties it, or fills it with a batch. */
  lemma StepPipe(c: Config, v: View<Record>, input: Input<Record>)
    requires 0 < c.cap && |v.queues| == |c.types| && InputOk(c, input)
    ensures var pipe := Step(c, v, input).0.pipe;
            pipe == v.pipe || pipe == [] || pipe == Pack(c, v.queues).moved
  {
    hide Pack, AllData, TotalCount;
  }

  /** And over a schedule. */
  ghost function SentOver(c: Config, s: Drain.System<Record>, turns: seq<Drain.Turn>): seq<Frame>
    requires 0 < c.cap && |s.store.queues| == |c.types| && Drain.Runs(c, s, turns)
    requires TypesBelow(s.store.pipe, |c.types|)
    decreases turns
  {
    if turns == [] then []
    else
      TurnKeepsTypes(c, s, turns[0]);
      SentIn(c, s, turns[0]) + SentOver(c, Drain.Take(c, s, turns[0]), turns[1..])
  }

  lemma SentOnce(c: Config, s: Drain.System<Record>, turn: Drain.Turn, t: nat)
    requires 0 < c.cap && |s.store.queues| == |c.types| && Drain.Enabled(s, turn)
    requires TypesBelow(s.store.pipe, |c.types|) && Storage.EnumeratorsFit(c) && t < |c.types|
    ensures OfType(Drain.Take(c, s, turn).got, t) == OfType(s.got, t) + DataUnder(SentIn(c, s, turn), c.types[t].id)
  {
    Storage.WireSorts(c, s.store.pipe, t);
    OfTypeConcat(s.got, s.store.pipe, t);
    hide Step, OfType, Storage.WireAll, Storage.EnumeratorsFit;
  }

  /** What is sent under the enumerator of a type is what of it reaches the cloud. */
  lemma {:induction false} SentIsGot(c: Config, s: Drain.System<Record>, turns: seq<Drain.Turn>, t: nat)
    requires 0 < c.cap && |s.store.queues| == |c.types| && Drain.Runs(c, s, turns)
    requires TypesBelow(s.store.pipe, |c.types|) && Storage.EnumeratorsFit(c) && t < |c.types|
    ensures OfType(Drain.Outcome(c, s, turns).got, t)
         == OfType(s.got, t) + DataUnder(SentOver(c, s, turns), c.types[t].id)
    decreases turns
  {
    hide Drain.Take, OfType, SentIn, Storage.EnumeratorsFit;
    if turns == [] {
      assert DataUnder([], c.types[t].id) == [];
    } else {
      var s', rest := Drain.Take(c, s, turns[0]), turns[1..];
      TurnKeepsTypes(c, s, turns[0]);
      SentOnce(c, s, turns[0], t);
      SentIsGot(c, s', rest, t);
      DataUnderConcat(SentIn(c, s, turns[0]), SentOver(c, s', rest), c.types[t].id);
    }
  }

  /** End to end: when both threads are done, whatever turns they took, the cloud has been sent the stock of
      each type under the enumerator of the type, oldest first and byte for byte. */
  lemma DrainDelivers(c: Config, qs: seq<seq<Record>>, id: UInt32, turns: seq<Drain.Turn>, t: nat)
    requires 0 < c.cap && id != 0 && |qs| == |c.types| && Drain.Framable(c) && Drain.Drainable(c, qs)
    requires Drain.Runs(c, Drain.Opening(qs, id), turns) && Storage.EnumeratorsFit(c) && t < |c.types|
    ensures var s := Drain.Opening(qs, id);
            Drain.Quiet(Drain.Outcome(c, s, turns)) ==> DataUnder(SentOver(c, s, turns), c.types[t].id) == qs[t]
  {
    hide Storage.EnumeratorsFit, Drain.Framable, Drain.Drainable, Drain.Runs, DataUnder, OfType, SentOver,
        Drain.Outcome;
    Drain.DrainCompletes(c, qs, id, turns);
    SentIsGot(c, Drain.Opening(qs, id), turns, t);
    NoneOfType(t);
  }

  lemma NoneOfType(t: nat)
    ensures OfType<Record>([], t) == []
  {
  }
}
