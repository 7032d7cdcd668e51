/** One batch exchange with the whole cloud machine: its connection comes and goes while it is offered
    batches. What is refused while it is paused is lost, and nothing else. */
module Handover {
  import opened Common
  import opened StorageSpec
  import opened Packing
  import Cloud = CloudSpec
  import Drain
  import StorageRuns

  /** `got` is what the cloud machine has read, `refused` what was unread when it closed an offer instead of
      reading it, `lost` what the storage module has thrown away unread. */
  datatype System<R> = System(
    store: View<R>,
    toStore: seq<Input<R>>,
    cloud: Cloud.View,
    toCloud: seq<Cloud.Msg>,
    got: seq<Item<R>>,
    refused: seq<Item<R>>,
    lost: seq<Item<R>>)

  /** A thread takes its next message; the cloud machine's subscriber hears from the network, from its own
      library or from other modules; the session timer runs out. */
  datatype Event =
    | StoreTakes
    | CloudTakes
    | CloudHears(msg: Cloud.Msg)
    | TimesOut

  predicate Possible<R>(s: System<R>, e: Event) {
    match e
    case StoreTakes => s.toStore != []
    case CloudTakes => s.toCloud != []
    case CloudHears(msg) => !msg.Stored?
    case TimesOut => s.store.armed
  }

  function ToStore<R>(msgs: seq<StorageMsg>): (inputs: seq<Input<R>>)
    ensures |inputs| == |msgs|
  {
    seq(|msgs|, i requires 0 <= i < |msgs| => Channel(msgs[i]))
  }

  function ToCloud(msgs: seq<StorageMsg>): (heard: seq<Cloud.Msg>)
    ensures |heard| == |msgs|
  {
    seq(|msgs|, i requires 0 <= i < |msgs| => Cloud.Stored(msgs[i]))
  }

  /** What the cloud machine says on STORAGE_CHAN. */
  function Said(outs: seq<Cloud.Out>): seq<StorageMsg> {
    if outs == [] then []
    else Said(outs[..|outs| - 1]) + if outs[|outs| - 1].Say? then [outs[|outs| - 1].storage] else []
  }

  function NewOuts(v: Cloud.View, v': Cloud.View): seq<Cloud.Out> {
    if |v.outs| <= |v'.outs| then v'.outs[|v.outs|..] else []
  }

  function Broadcast<R>(s: System<R>, msgs: seq<StorageMsg>): System<R> {
    s.(toStore := s.toStore + ToStore(msgs), toCloud := s.toCloud + ToCloud(msgs))
  }

  predicate Offers(msg: Cloud.Msg) {
    msg.Stored? && msg.storage.BatchAvailable?
  }

  ghost predicate Sane<R>(c: Config, s: System<R>) {
    0 < c.cap && |s.store.queues| == |c.types| && forall i :: i in s.toStore ==> InputOk(c, i)
  }

  ghost function Happens<R>(c: Config, cc: Cloud.Config, s: System<R>, e: Event): (s': System<R>)
    requires Sane(c, s) && Possible(s, e)
    ensures Sane(c, s')
  {
    match e
    case StoreTakes =>
      assert InputOk(c, s.toStore[0]);
      var (v, outs) := Step(c, s.store, s.toStore[0]);
      var gone := if StorageRuns.Discards(s.store, StorageRuns.Message(s.toStore[0])) then s.store.pipe else [];
      Broadcast(s.(store := v, toStore := s.toStore[1..], lost := s.lost + gone), Drain.Published(outs))
    case CloudTakes =>
      var msg := s.toCloud[0];
      var cloud' := Cloud.Step(cc, s.cloud, msg);
      var outs := NewOuts(s.cloud, cloud');
      var s1 := s.(cloud := cloud', toCloud := s.toCloud[1..]);
      var s2 := if Cloud.ReadBatch in outs then s1.(got := s.got + s.store.pipe, store := s.store.(pipe := [])) else s1;
      var s3 := if Offers(msg) && s.cloud.leaf == Cloud.ConnectedPaused then s2.(refused := s.refused + s.store.pipe)
                else s2;
      Broadcast(s3, Said(outs))
    case CloudHears(msg) => s.(toCloud := s.toCloud + [msg])
    case TimesOut => s.(toStore := s.toStore + [SessionTimeout])
  }

  ghost predicate Occurs<R>(c: Config, cc: Cloud.Config, s: System<R>, es: seq<Event>)
    requires Sane(c, s)
    decreases es
  {
    es != [] ==> Possible(s, es[0]) && Occurs(c, cc, Happens(c, cc, s, es[0]), es[1..])
  }

  ghost function Finally<R>(c: Config, cc: Cloud.Config, s: System<R>, es: seq<Event>): (s': System<R>)
    requires Sane(c, s) && Occurs(c, cc, s, es)
    ensures Sane(c, s')
    decreases es
  {
    if es == [] then s else Finally(c, cc, Happens(c, cc, s, es[0]), es[1..])
  }

  /** One request with a proper id meets an idle storage module and a cloud machine in any state. */
  function Opening<R>(qs: seq<seq<R>>, id: UInt32, cloud: Cloud.View): System<R> {
    System(StartUp(BufferIdle, qs), [Channel(BatchRequest(id))], cloud, [Cloud.Stored(BatchRequest(id))], [], [], [])
  }

  // ---- Counting messages ----

  function Channels<R>(inputs: seq<Input<R>>): seq<StorageMsg> {
    if inputs == [] then [] else (if inputs[0].Channel? then [inputs[0].msg] else []) + Channels(inputs[1..])
  }

  function Storeds(msgs: seq<Cloud.Msg>): seq<StorageMsg> {
    if msgs == [] then [] else (if msgs[0].Stored? then [msgs[0].storage] else []) + Storeds(msgs[1..])
  }

  lemma {:induction false} ChannelsGrow<R>(inputs: seq<Input<R>>, msgs: seq<StorageMsg>)
    ensures Channels(inputs + ToStore<R>(msgs)) == Channels(inputs) + msgs
  {
    if inputs != [] {
      ChannelsGrow(inputs[1..], msgs);
      assert (inputs + ToStore<R>(msgs))[1..] == inputs[1..] + ToStore<R>(msgs);
    } else if msgs != [] {
      ChannelsGrow<R>([], msgs[1..]);
      assert [] + ToStore<R>(msgs) == [Channel(msgs[0])] + ToStore<R>(msgs[1..]);
      assert [] + ToStore<R>(msgs[1..]) == ToStore<R>(msgs[1..]);
    }
  }

  lemma {:induction false} StoredsGrow(heard: seq<Cloud.Msg>, msgs: seq<StorageMsg>)
    ensures Storeds(heard + ToCloud(msgs)) == Storeds(heard) + msgs
  {
    if heard != [] {
      StoredsGrow(heard[1..], msgs);
      assert (heard + ToCloud(msgs))[1..] == heard[1..] + ToCloud(msgs);
    } else if msgs != [] {
      StoredsGrow([], msgs[1..]);
      assert [] + ToCloud(msgs) == [Cloud.Stored(msgs[0])] + ToCloud(msgs[1..]);
      assert [] + ToCloud(msgs[1..]) == ToCloud(msgs[1..]);
    }
  }

  lemma {:induction false} StoredsOther(heard: seq<Cloud.Msg>, msg: Cloud.Msg)
    requires !msg.Stored?
    ensures Storeds(heard + [msg]) == Storeds(heard)
  {
    if heard == [] {
      assert [] + [msg] == [msg];
    } else {
      StoredsOther(heard[1..], msg);
      assert (heard + [msg])[1..] == heard[1..] + [msg];
    }
  }

  /** Requests and closes on their way to the storage module, offers and empty answers to the cloud machine. */
  datatype Tally = Tally(requests: nat, closes: nat, offers: nat, empties: nat)

  function TallyOf(toStore: seq<StorageMsg>, toCloud: seq<StorageMsg>): Tally {
    Tally(Drain.Count(toStore, Drain.Request), Drain.Count(toStore, Drain.Close),
          Drain.Count(toCloud, Drain.Available), Drain.Count(toCloud, Drain.Empty))
  }

  function Plus(a: Tally, b: Tally): Tally {
    Tally(a.requests + b.requests, a.closes + b.closes, a.offers + b.offers, a.empties + b.empties)
  }

  lemma TallyGrows(toStore: seq<StorageMsg>, toCloud: seq<StorageMsg>, msgs: seq<StorageMsg>)
    ensures TallyOf(toStore + msgs, toCloud + msgs) == Plus(TallyOf(toStore, toCloud), TallyOf(msgs, msgs))
  {
    Drain.CountConcat(toStore, msgs, Drain.Request);
    Drain.CountConcat(toStore, msgs, Drain.Close);
    Drain.CountConcat(toCloud, msgs, Drain.Available);
    Drain.CountConcat(toCloud, msgs, Drain.Empty);
  }

  lemma StoreTaken(toStore: seq<StorageMsg>, toCloud: seq<StorageMsg>)
    requires toStore != []
    ensures TallyOf(toStore, toCloud) == Plus(TallyOf(toStore[1..], toCloud), TallyOf([toStore[0]], []))
  {
    hide Drain.Count, Drain.KindOf;
    Drain.CountOne(toStore[0], Drain.Request);
    Drain.CountOne(toStore[0], Drain.Close);
    Drain.CountOne(toStore[0], Drain.Available);
    Drain.CountOne(toStore[0], Drain.Empty);
    Drain.RestCounts(toStore, Drain.Request);
    Drain.RestCounts(toStore, Drain.Close);
  }

  lemma CloudTaken(toStore: seq<StorageMsg>, toCloud: seq<StorageMsg>)
    requires toCloud != []
    ensures TallyOf(toStore, toCloud) == Plus(TallyOf(toStore, toCloud[1..]), TallyOf([], [toCloud[0]]))
  {
    hide Drain.Count, Drain.KindOf;
    Drain.CountOne(toCloud[0], Drain.Request);
    Drain.CountOne(toCloud[0], Drain.Close);
    Drain.CountOne(toCloud[0], Drain.Available);
    Drain.CountOne(toCloud[0], Drain.Empty);
    Drain.RestCounts(toCloud, Drain.Available);
    Drain.RestCounts(toCloud, Drain.Empty);
  }

  // ---- The invariant ----

  /** The request goes back and forth as one token, unread items are those of the last offer, and refused ones
      are lost or about to be. */
  ghost predicate Balanced<R>(n: Tally, pipe: seq<Item<R>>, refused: seq<Item<R>>, lost: seq<Item<R>>) {
    && n.requests + n.offers <= 1
    && (n.requests + n.offers == 1 ==> n.closes == 0 && n.empties == 0 && lost == [])
    && (n.requests == 1 || n.empties > 0 || lost != [] ==> pipe == [])
    && refused == lost + if n.requests + n.offers == 0 && n.closes > 0 then pipe else []
  }

  function Now<R>(s: System<R>): Tally {
    TallyOf(Channels(s.toStore), Storeds(s.toCloud))
  }

  /** Every record of a type is delivered, lost, unread or stored, in this order. */
  ghost predicate Conserved<R>(s: System<R>, stock: seq<seq<R>>) {
    && |stock| == |s.store.queues|
    && forall t :: 0 <= t < |stock| ==>
         OfType(s.got, t) + OfType(s.lost, t) + OfType(s.store.pipe, t) + s.store.queues[t] == stock[t]
  }

  ghost predicate NoTimeout<R>(s: System<R>) {
    forall i :: i in s.toStore ==> i.Channel?
  }

  ghost predicate SessionOk<R>(v: View<R>, id: UInt32) {
    && v.leaf != Leaf.Passthrough
    && (v.leaf == PipeActive ==> v.session.id == id)
    && (v.leaf == BufferIdle ==> v.pipe == [])
  }

  ghost predicate Inv<R>(c: Config, s: System<R>, id: UInt32, stock: seq<seq<R>>) {
    && Sane(c, s) && id != 0 && NoTimeout(s) && SessionOk(s.store, id)
    && Drain.Concerns(Channels(s.toStore), id) && Drain.Concerns(Storeds(s.toCloud), id)
    && Balanced(Now(s), s.store.pipe, s.refused, s.lost)
    && Conserved(s, stock)
  }

  // ---- What the cloud machine says ----

  lemma SaidAll(msgs: seq<StorageMsg>)
    ensures Said(Cloud.SayAll(msgs)) == msgs
    ensures Cloud.ReadBatch !in Cloud.SayAll(msgs)
    decreases |msgs|
  {
    var outs := Cloud.SayAll(msgs);
    if msgs != [] {
      SaidAll(msgs[..|msgs| - 1]);
      assert outs[..|msgs| - 1] == Cloud.SayAll(msgs[..|msgs| - 1]);
    }
  }

  lemma {:induction false} SaidConcat(a: seq<Cloud.Out>, b: seq<Cloud.Out>)
    ensures Said(a + b) == Said(a) + Said(b)
  {
    if b == [] {
      assert a + b == a;
    } else {
      SaidConcat(a, b[..|b| - 1]);
      assert (a + b)[..|a + b| - 1] == a + b[..|b| - 1];
    }
  }

  /** What the cloud machine does with a message of the storage channel. */
  function Reply(leaf: Cloud.State, msg: StorageMsg): seq<StorageMsg> {
    match leaf
    case ConnectedReady => Drain.Answer(msg)
    case ConnectedPaused =>
      if msg.BatchAvailable? || msg.BatchEmpty? || msg.BatchError? then [BatchClose(msg.id)] else []
    case _ => []
  }

  function OutsFor(leaf: Cloud.State, msg: StorageMsg): seq<Cloud.Out> {
    (if leaf == Cloud.ConnectedReady && msg.BatchAvailable? then [Cloud.ReadBatch] else [])
    + Cloud.SayAll(Reply(leaf, msg))
  }

  lemma StoredEffect(v: Cloud.View, msg: StorageMsg)
    ensures Cloud.StepStored(v, msg) == Cloud.Publish(v, OutsFor(v.leaf, msg))
  {
    hide Drain.Answer;
    assert v.outs + ([] + []) == v.outs && Cloud.SayAll([]) == [];
    if msg.BatchAvailable? || msg.BatchEmpty? || msg.BatchError? {
      var close := [BatchClose(msg.id)];
      assert Cloud.SayAll(close) == [Cloud.Out.Say(close[0])] && [] + Cloud.SayAll(close) == Cloud.SayAll(close);
    }
  }

  lemma OutsForSay(leaf: Cloud.State, msg: StorageMsg)
    ensures Said(OutsFor(leaf, msg)) == Reply(leaf, msg)
    ensures Cloud.ReadBatch in OutsFor(leaf, msg) <==> leaf == Cloud.ConnectedReady && msg.BatchAvailable?
  {
    hide Reply, Cloud.SayAll;
    var read: seq<Cloud.Out> := if leaf == Cloud.ConnectedReady && msg.BatchAvailable? then [Cloud.ReadBatch] else [];
    SaidAll(Reply(leaf, msg));
    SaidConcat(read, Cloud.SayAll(Reply(leaf, msg)));
    assert [Cloud.ReadBatch][..0] == [] && Said(read) == [];
  }

  lemma CloudReplies(cc: Cloud.Config, v: Cloud.View, msg: StorageMsg)
    ensures var w := Cloud.Step(cc, v, Cloud.Stored(msg));
            && w.leaf == v.leaf && Said(NewOuts(v, w)) == Reply(v.leaf, msg)
            && (Cloud.ReadBatch in NewOuts(v, w) <==> v.leaf == Cloud.ConnectedReady && msg.BatchAvailable?)
  {
    hide Cloud.StepStored, OutsFor, Reply, Said, Cloud.StepPrivate;
    StoredEffect(v, msg);
    OutsForSay(v.leaf, msg);
    var w := Cloud.Step(cc, v, Cloud.Stored(msg));
    assert Cloud.Retain(v, Cloud.Stored(msg)) == v && w == Cloud.StepStored(v, msg);
    assert NewOuts(v, w) == OutsFor(v.leaf, msg);
  }

  /** Nothing of this concerns the storage channel. */
  ghost predicate Silent(outs: seq<Cloud.Out>) {
    forall out :: out in outs ==> !out.Say? && !out.ReadBatch?
  }

  ghost predicate AddsSilently(v: Cloud.View, w: Cloud.View) {
    v.outs <= w.outs && Silent(w.outs[|v.outs|..])
  }

  lemma {:induction false} SilentSaysNothing(outs: seq<Cloud.Out>)
    requires Silent(outs)
    ensures Said(outs) == [] && Cloud.ReadBatch !in outs
  {
    if outs != [] {
      SilentSaysNothing(outs[..|outs| - 1]);
    }
  }

  lemma PrivateIsSilent(cc: Cloud.Config, v: Cloud.View, msg: Cloud.Private)
    ensures AddsSilently(v, Cloud.StepPrivate(cc, v, msg))
  {
    hide Cloud.BackoffTime;
  }

  lemma OtherIsSilent(cc: Cloud.Config, v: Cloud.View, msg: Cloud.Msg)
    requires !msg.Stored?
    ensures AddsSilently(v, Cloud.Step(cc, v, msg))
  {
    hide Cloud.BackoffTime, Cloud.StepPrivate;
    if msg.Priv? {
      PrivateIsSilent(cc, Cloud.Retain(v, msg), msg.msg);
      assert Cloud.Step(cc, v, msg) == Cloud.StepPrivate(cc, Cloud.Retain(v, msg), msg.msg);
    }
  }

  // ---- The queues after a turn ----

  lemma AfterStoreTurn<R>(toStore: seq<Input<R>>, toCloud: seq<Cloud.Msg>, msgs: seq<StorageMsg>, id: UInt32)
    requires toStore != [] && toStore[0].Channel?
    ensures var s1, c1 := Channels(toStore[1..] + ToStore<R>(msgs)), Storeds(toCloud + ToCloud(msgs));
            && Plus(TallyOf(s1, c1), TallyOf([toStore[0].msg], []))
               == Plus(TallyOf(Channels(toStore), Storeds(toCloud)), TallyOf(msgs, msgs))
            && (Drain.Concerns(Channels(toStore), id) && Drain.Concerns(msgs, id) ==> Drain.Concerns(s1, id))
            && (Drain.Concerns(Storeds(toCloud), id) && Drain.Concerns(msgs, id) ==> Drain.Concerns(c1, id))
    ensures Drain.Concerns(Channels(toStore), id) ==> Drain.Concerns([toStore[0].msg], id)
  {
    hide TallyOf;
    ChannelsGrow(toStore[1..], msgs);
    StoredsGrow(toCloud, msgs);
    var tS, tC := Channels(toStore), Storeds(toCloud);
    assert tS[0] == toStore[0].msg && tS[1..] == Channels(toStore[1..]);
    StoreTaken(tS, tC);
    TallyGrows(tS[1..], tC, msgs);
  }

  lemma AfterCloudTurn<R>(toStore: seq<Input<R>>, toCloud: seq<Cloud.Msg>, msgs: seq<StorageMsg>, id: UInt32)
    requires toCloud != [] && toCloud[0].Stored?
    ensures var s1, c1 := Channels(toStore + ToStore<R>(msgs)), Storeds(toCloud[1..] + ToCloud(msgs));
            && Plus(TallyOf(s1, c1), TallyOf([], [toCloud[0].storage]))
               == Plus(TallyOf(Channels(toStore), Storeds(toCloud)), TallyOf(msgs, msgs))
            && (Drain.Concerns(Channels(toStore), id) && Drain.Concerns(msgs, id) ==> Drain.Concerns(s1, id))
            && (Drain.Concerns(Storeds(toCloud), id) && Drain.Concerns(msgs, id) ==> Drain.Concerns(c1, id))
    ensures Drain.Concerns(Storeds(toCloud), id) ==> Drain.Concerns([toCloud[0].storage], id)
  {
    hide TallyOf;
    ChannelsGrow(toStore, msgs);
    StoredsGrow(toCloud[1..], msgs);
    var tS, tC := Channels(toStore), Storeds(toCloud);
    assert tC[0] == toCloud[0].storage && tC[1..] == Storeds(toCloud[1..]);
    CloudTaken(tS, tC);
    TallyGrows(tS, tC[1..], msgs);
  }

  /** The tally of what is published at once: nothing, one message, or one twice. */
  lemma TallyFew(msg: StorageMsg)
    ensures TallyOf([], []) == Tally(0, 0, 0, 0)
    ensures TallyOf([msg], []) == Tally(if msg.BatchRequest? then 1 else 0, if msg.BatchClose? then 1 else 0, 0, 0)
    ensures TallyOf([], [msg])
         == Tally(0, 0, if msg.BatchAvailable? then 1 else 0, if msg.BatchEmpty? then 1 else 0)
    ensures TallyOf([msg], [msg]) == Plus(TallyOf([msg], []), TallyOf([], [msg]))
    ensures TallyOf([msg, msg], [msg, msg]) == Plus(TallyOf([msg], [msg]), TallyOf([msg], [msg]))
  {
    hide Drain.Count;
    Drain.CountOne(msg, Drain.Request);
    Drain.CountOne(msg, Drain.Close);
    Drain.CountOne(msg, Drain.Available);
    Drain.CountOne(msg, Drain.Empty);
  }

  lemma ConcernsFew(msg: StorageMsg, id: UInt32)
    requires msg == BatchRequest(id) || msg == BatchClose(id) || (msg.BatchAvailable? && msg.id == id)
             || msg == BatchEmpty(id)
    ensures Drain.Concerns([], id) && Drain.Concerns([msg], id) && Drain.Concerns([msg, msg], id)
  {
  }

  // ---- The storage module's turn ----

  lemma RequestFinds<R>(c: Config, v: View<R>, id: UInt32)
    requires 0 < c.cap && |v.queues| == |c.types| && Drain.Framable(c) && id != 0 && SessionOk(v, id)
    ensures var (w, outs) := Step(c, v, Channel(BatchRequest(id)));
            && SessionOk(w, id)
            && if TotalCount(v.queues) > 0 then
                 var p := Pack(c, v.queues);
                 w.pipe == p.moved && w.queues == p.left && Drain.Published(outs) == [Drain.OfferFor(id, p)]
               else
                 && w.pipe == v.pipe && w.queues == v.queues
                 && (Drain.Published(outs) == [BatchEmpty(id)]
                     || Drain.Published(outs) == [BatchEmpty(id), BatchEmpty(id)])
  {
    hide Pack, TotalCount, Drain.Published, Drain.Framable;
    Drain.BatchFacts(c, v.queues);
    Drain.PublishedFew<R>(Drain.OfferFor(id, Pack(c, v.queues)));
    Drain.PublishedFew<R>(BatchEmpty(id));
  }

  /** What a turn leaves, given what the module did: the same system with a new session, other items on the
      move, and the queues one message on. */
  ghost predicate Moves<R>(c: Config, s: System<R>, s': System<R>, taken: Tally, msgs: seq<StorageMsg>, id: UInt32) {
    && Sane(c, s') && NoTimeout(s')
    && Drain.Concerns(Channels(s'.toStore), id) && Drain.Concerns(Storeds(s'.toCloud), id)
    && Plus(Now(s'), taken) == Plus(Now(s), TallyOf(msgs, msgs))
  }

  lemma StoreMoves<R>(c: Config, cc: Cloud.Config, s: System<R>, id: UInt32, stock: seq<seq<R>>, msgs: seq<StorageMsg>)
    requires Inv(c, s, id, stock) && s.toStore != [] && Drain.Concerns(msgs, id)
    requires msgs == Drain.Published(Step(c, s.store, s.toStore[0]).1)
    ensures s.toStore[0].Channel? && Drain.Concerns([s.toStore[0].msg], id)
    ensures var s' := Happens(c, cc, s, StoreTakes);
            && Moves(c, s, s', TallyOf([s.toStore[0].msg], []), msgs, id)
            && s'.store == Step(c, s.store, s.toStore[0]).0 && s'.got == s.got && s'.refused == s.refused
            && s'.lost == s.lost + if StorageRuns.Discards(s.store, StorageRuns.Message(s.toStore[0])) then s.store.pipe
                                   else []
  {
    hide Step, Drain.Published, TallyOf, Balanced, Conserved, StorageRuns.Discards, Channels, Storeds;
    AfterStoreTurn(s.toStore, s.toCloud, msgs, id);
    assert s.toStore[0] in s.toStore;
  }

  lemma ConservedByBatch<R>(s: System<R>, s': System<R>, stock: seq<seq<R>>)
    requires Conserved(s, stock) && s.store.pipe == [] && s'.got == s.got && s'.lost == s.lost
    requires |s'.store.queues| == |s.store.queues|
    requires forall t :: 0 <= t < |s.store.queues| ==>
               OfType(s'.store.pipe, t) + s'.store.queues[t] == s.store.queues[t]
    ensures Conserved(s', stock)
  {
    assert forall t :: OfType<R>([], t) == [];
    hide OfType;
    forall t | 0 <= t < |stock|
      ensures OfType(s'.got, t) + OfType(s'.lost, t) + OfType(s'.store.pipe, t) + s'.store.queues[t] == stock[t]
    {
      var front := OfType(s.got, t) + OfType(s.lost, t);
      assert front + OfType(s'.store.pipe, t) + s'.store.queues[t]
          == front + (OfType(s'.store.pipe, t) + s'.store.queues[t]);
      assert front + [] == front;
    }
  }

  /** A request taken: nothing was unread, and the token is the offer made or has come to its end. */
  lemma RequestBalances<R>(n: Tally, n': Tally, more: Tally, pipe: seq<Item<R>>, pipe': seq<Item<R>>,
                           refused: seq<Item<R>>, lost: seq<Item<R>>)
    requires Balanced(n, pipe, refused, lost) && n.requests > 0
    requires Plus(n', Tally(1, 0, 0, 0)) == Plus(n, more)
    requires more == Tally(0, 0, 1, 0) || (more.requests == more.closes == more.offers == 0 && pipe' == pipe)
    ensures pipe == [] && lost == [] && Balanced(n', pipe', refused, lost)
  {
  }

  lemma OfferMade<R>(c: Config, cc: Cloud.Config, s: System<R>, id: UInt32, stock: seq<seq<R>>)
    requires Inv(c, s, id, stock) && Drain.Framable(c) && s.toStore != [] && s.toStore[0] == Channel(BatchRequest(id))
    requires TotalCount(s.store.queues) > 0
    ensures Inv(c, Happens(c, cc, s, StoreTakes), id, stock)
  {
    hide Step, Drain.Framable, Drain.Published, TotalCount, Pack, TallyOf, Conserved, Happens, Drain.Concerns, OfType,
        StorageRuns.Discards, Balanced, InputOk, NoTimeout, Channels, Storeds;
    var p := Pack(c, s.store.queues);
    var offer := Drain.OfferFor(id, p);
    RequestFinds(c, s.store, id);
    Drain.BatchFacts(c, s.store.queues);
    TallyFew(BatchRequest(id));
    TallyFew(offer);
    ConcernsFew(offer, id);
    StoreMoves(c, cc, s, id, stock, [offer]);
    var s' := Happens(c, cc, s, StoreTakes);
    RequestCounted(s, id);
    RequestBalances(Now(s), Now(s'), Tally(0, 0, 1, 0), s.store.pipe, s'.store.pipe, s.refused, s.lost);
    ConservedByBatch(s, s', stock);
  }

  lemma RequestCounted<R>(s: System<R>, id: UInt32)
    requires s.toStore != [] && s.toStore[0] == Channel(BatchRequest(id))
    ensures Now(s).requests > 0
  {
  }

  lemma EmptyMoves<R>(c: Config, cc: Cloud.Config, s: System<R>, id: UInt32, stock: seq<seq<R>>, msgs: seq<StorageMsg>)
    requires Inv(c, s, id, stock) && s.toStore != [] && s.toStore[0] == Channel(BatchRequest(id))
    requires var v := Step(c, s.store, s.toStore[0]).0;
             v.pipe == s.store.pipe && v.queues == s.store.queues && SessionOk(v, id)
    requires msgs == Drain.Published(Step(c, s.store, s.toStore[0]).1) && Drain.Concerns(msgs, id)
    requires var more := TallyOf(msgs, msgs); more.requests == more.closes == more.offers == 0
    ensures Inv(c, Happens(c, cc, s, StoreTakes), id, stock)
  {
    hide Step, Drain.Published, TallyOf, Conserved, Happens, Drain.Concerns, OfType, SessionOk,
        StorageRuns.Discards, Balanced, InputOk, NoTimeout, Channels, Storeds;
    TallyFew(BatchRequest(id));
    StoreMoves(c, cc, s, id, stock, msgs);
    var s' := Happens(c, cc, s, StoreTakes);
    RequestCounted(s, id);
    RequestBalances(Now(s), Now(s'), TallyOf(msgs, msgs), s.store.pipe, s'.store.pipe, s.refused, s.lost);
    SameItems(s, s', stock);
  }

  lemma EmptyAnswered<R>(c: Config, cc: Cloud.Config, s: System<R>, id: UInt32, stock: seq<seq<R>>)
    requires Inv(c, s, id, stock) && Drain.Framable(c) && s.toStore != [] && s.toStore[0] == Channel(BatchRequest(id))
    requires TotalCount(s.store.queues) == 0
    ensures Inv(c, Happens(c, cc, s, StoreTakes), id, stock)
  {
    hide Step, Drain.Framable, Drain.Published, TotalCount, TallyOf, Happens, Drain.Concerns, Balanced, Conserved,
        NoTimeout, Channels, Storeds;
    var empty := BatchEmpty(id);
    RequestFinds(c, s.store, id);
    TallyFew(empty);
    ConcernsFew(empty, id);
    if Drain.Published(Step(c, s.store, s.toStore[0]).1) == [empty] {
      EmptyMoves(c, cc, s, id, stock, [empty]);
    } else {
      EmptyMoves(c, cc, s, id, stock, [empty, empty]);
    }
  }

  /** A close taken: what was unread, if anything, had been refused. */
  lemma CloseBalances<R>(n: Tally, n': Tally, pipe: seq<Item<R>>, refused: seq<Item<R>>, lost: seq<Item<R>>)
    requires Balanced(n, pipe, refused, lost) && n.closes > 0 && Plus(n', Tally(0, 1, 0, 0)) == n
    ensures Balanced(n', [], refused, lost + pipe)
  {
  }

  lemma CloseTurn<R>(c: Config, cc: Cloud.Config, s: System<R>, id: UInt32, stock: seq<seq<R>>)
    requires Inv(c, s, id, stock) && s.toStore != [] && s.toStore[0] == Channel(BatchClose(id))
    ensures Inv(c, Happens(c, cc, s, StoreTakes), id, stock)
  {
    hide Drain.Published, TotalCount, TallyOf, Happens, Drain.Concerns, OfType, Balanced, InputOk, NoTimeout, Channels,
        Storeds, Conserved, Start, AllData;
    assert Step(c, s.store, s.toStore[0]).1 == [];
    Drain.PublishedFew<R>(BatchClose(id));
    TallyFew(BatchClose(id));
    ConcernsFew(BatchClose(id), id);
    StoreMoves(c, cc, s, id, stock, []);
    var s' := Happens(c, cc, s, StoreTakes);
    CloseCounted(s, id);
    CloseBalances(Now(s), Now(s'), s.store.pipe, s.refused, s.lost);
    LossConserves(s, s', stock);
  }

  lemma CloseCounted<R>(s: System<R>, id: UInt32)
    requires s.toStore != [] && s.toStore[0] == Channel(BatchClose(id))
    ensures Now(s).closes > 0
  {
  }

  lemma LossConserves<R>(s: System<R>, s': System<R>, stock: seq<seq<R>>)
    requires Conserved(s, stock) && s'.got == s.got && s'.lost == s.lost + s.store.pipe
    requires s'.store.pipe == [] && s'.store.queues == s.store.queues
    ensures Conserved(s', stock)
  {
    assert forall t :: OfType<R>([], t) == [];
    forall t | 0 <= t < |stock|
      ensures OfType(s'.got, t) + OfType(s'.lost, t) + OfType(s'.store.pipe, t) + s'.store.queues[t] == stock[t]
    {
      OfTypeConcat(s.lost, s.store.pipe, t);
      assert OfType(s.got, t) + (OfType(s.lost, t) + OfType(s.store.pipe, t)) + []
          == OfType(s.got, t) + OfType(s.lost, t) + OfType(s.store.pipe, t);
    }
    hide OfType;
  }

  lemma SameItems<R>(s: System<R>, s': System<R>, stock: seq<seq<R>>)
    requires Conserved(s, stock) && s'.got == s.got && s'.lost == s.lost
    requires s'.store.pipe == s.store.pipe && s'.store.queues == s.store.queues
    ensures Conserved(s', stock)
  {
  }

  /** Anything but a request or a close says nothing and changes nothing. */
  lemma EchoTurn<R>(c: Config, cc: Cloud.Config, s: System<R>, id: UInt32, stock: seq<seq<R>>)
    requires Inv(c, s, id, stock) && s.toStore != []
    requires s.toStore[0] != Channel(BatchRequest(id)) && s.toStore[0] != Channel(BatchClose(id))
    ensures Inv(c, Happens(c, cc, s, StoreTakes), id, stock)
  {
    hide Drain.Published, TotalCount, TallyOf, Happens, OfType, Balanced, InputOk, Channels, Storeds, Conserved, Start,
        AllData, Drain.Concerns;
    assert s.toStore[0] in s.toStore;
    EchoIs(s.toStore, id);
    var msg := s.toStore[0].msg;
    assert Step(c, s.store, s.toStore[0]) == (s.store, []);
    Drain.PublishedFew<R>(msg);
    TallyFew(msg);
    ConcernsFew(msg, id);
    StoreMoves(c, cc, s, id, stock, []);
    var s' := Happens(c, cc, s, StoreTakes);
    assert s.lost + [] == s.lost;
    assert Now(s') == Now(s);
    SameItems(s, s', stock);
  }

  lemma EchoIs<R>(toStore: seq<Input<R>>, id: UInt32)
    requires toStore != [] && toStore[0].Channel? && Drain.Concerns(Channels(toStore), id)
    requires toStore[0] != Channel(BatchRequest(id)) && toStore[0] != Channel(BatchClose(id))
    ensures var msg := toStore[0].msg; (msg.BatchAvailable? && msg.id == id) || msg == BatchEmpty(id)
  {
    assert Channels(toStore)[0] == toStore[0].msg;
  }

  lemma StoreTurn<R>(c: Config, cc: Cloud.Config, s: System<R>, id: UInt32, stock: seq<seq<R>>)
    requires Inv(c, s, id, stock) && Drain.Framable(c) && Possible(s, StoreTakes)
    ensures Inv(c, Happens(c, cc, s, StoreTakes), id, stock)
  {
    hide Inv, Happens, Drain.Framable, TotalCount;
    if s.toStore[0] == Channel(BatchRequest(id)) {
      if TotalCount(s.store.queues) > 0 {
        OfferMade(c, cc, s, id, stock);
      } else {
        EmptyAnswered(c, cc, s, id, stock);
      }
    } else if s.toStore[0] == Channel(BatchClose(id)) {
      CloseTurn(c, cc, s, id, stock);
    } else {
      EchoTurn(c, cc, s, id, stock);
    }
  }

  // ---- The cloud machine's turn ----

  lemma CloudMoves<R>(c: Config, cc: Cloud.Config, s: System<R>, id: UInt32, stock: seq<seq<R>>)
    requires Inv(c, s, id, stock) && s.toCloud != [] && s.toCloud[0].Stored?
    requires Drain.Concerns(Reply(s.cloud.leaf, s.toCloud[0].storage), id)
    ensures Drain.Concerns([s.toCloud[0].storage], id)
    ensures var s', msg := Happens(c, cc, s, CloudTakes), s.toCloud[0].storage;
            && Moves(c, s, s', TallyOf([], [msg]), Reply(s.cloud.leaf, msg), id)
            && (if s.cloud.leaf == Cloud.ConnectedReady && msg.BatchAvailable? then
                  s'.got == s.got + s.store.pipe && s'.store == s.store.(pipe := [])
                else s'.got == s.got && s'.store == s.store)
            && s'.lost == s.lost
            && s'.refused == s.refused + if msg.BatchAvailable? && s.cloud.leaf == Cloud.ConnectedPaused
                                         then s.store.pipe else []
  {
    hide TallyOf, Balanced, Conserved, Channels, Storeds, Cloud.Step, NewOuts, Said, Reply, Drain.Concerns, InputOk;
    var msg := s.toCloud[0].storage;
    CloudReplies(cc, s.cloud, msg);
    AfterCloudTurn(s.toStore, s.toCloud, Reply(s.cloud.leaf, msg), id);
  }

  lemma OfferedIs<R>(s: System<R>)
    requires s.toCloud != [] && s.toCloud[0].Stored?
    ensures s.toCloud[0].storage.BatchAvailable? ==> Now(s).offers > 0
    ensures s.toCloud[0].storage.BatchEmpty? ==> Now(s).empties > 0
  {
  }

  /** An offer taken: read and answered, refused with a close, or ignored. */
  lemma OfferBalances<R>(n: Tally, n': Tally, more: Tally, pipe: seq<Item<R>>, refused: seq<Item<R>>,
                         lost: seq<Item<R>>)
    requires Balanced(n, pipe, refused, lost) && n.offers > 0
    requires Plus(n', Tally(0, 0, 1, 0)) == Plus(n, more)
    ensures lost == [] && refused == []
    ensures more == Tally(1, 0, 0, 0) || more == Tally(0, 1, 0, 0) ==> Balanced(n', [], refused, lost)
    ensures more == Tally(0, 1, 0, 0) ==> Balanced(n', pipe, refused + pipe, lost)
    ensures more == Tally(0, 0, 0, 0) ==> Balanced(n', pipe, refused, lost)
  {
    assert refused + pipe == lost + pipe;
  }

  lemma OfferRead<R>(c: Config, cc: Cloud.Config, s: System<R>, id: UInt32, stock: seq<seq<R>>, answer: StorageMsg)
    requires Inv(c, s, id, stock) && s.toCloud != [] && s.toCloud[0].Stored? && s.toCloud[0].storage.BatchAvailable?
    requires s.cloud.leaf == Cloud.ConnectedReady && Reply(s.cloud.leaf, s.toCloud[0].storage) == [answer]
    requires answer == BatchRequest(id) || answer == BatchClose(id)
    ensures Inv(c, Happens(c, cc, s, CloudTakes), id, stock)
  {
    hide TallyOf, Balanced, Conserved, Channels, Storeds, Happens, Drain.Concerns, InputOk, NoTimeout, OfType, Reply;
    TallyFew(answer);
    TallyFew(s.toCloud[0].storage);
    ConcernsFew(answer, id);
    CloudMoves(c, cc, s, id, stock);
    OfferedIs(s);
    var s' := Happens(c, cc, s, CloudTakes);
    OfferBalances(Now(s), Now(s'), TallyOf([answer], [answer]), s.store.pipe, s.refused, s.lost);
    DeliveryConserves(s, s', stock);
  }

  lemma OfferRefused<R>(c: Config, cc: Cloud.Config, s: System<R>, id: UInt32, stock: seq<seq<R>>)
    requires Inv(c, s, id, stock) && s.toCloud != [] && s.toCloud[0].Stored? && s.toCloud[0].storage.BatchAvailable?
    requires s.cloud.leaf == Cloud.ConnectedPaused && Reply(s.cloud.leaf, s.toCloud[0].storage) == [BatchClose(id)]
    ensures Inv(c, Happens(c, cc, s, CloudTakes), id, stock)
  {
    hide TallyOf, Balanced, Conserved, Channels, Storeds, Happens, Drain.Concerns, InputOk, NoTimeout, OfType, Reply;
    TallyFew(BatchClose(id));
    TallyFew(s.toCloud[0].storage);
    ConcernsFew(BatchClose(id), id);
    CloudMoves(c, cc, s, id, stock);
    OfferedIs(s);
    var s' := Happens(c, cc, s, CloudTakes);
    OfferBalances(Now(s), Now(s'), Tally(0, 1, 0, 0), s.store.pipe, s.refused, s.lost);
    SameItems(s, s', stock);
  }

  lemma OfferIgnored<R>(c: Config, cc: Cloud.Config, s: System<R>, id: UInt32, stock: seq<seq<R>>)
    requires Inv(c, s, id, stock) && s.toCloud != [] && s.toCloud[0].Stored? && s.toCloud[0].storage.BatchAvailable?
    requires s.cloud.leaf != Cloud.ConnectedReady && s.cloud.leaf != Cloud.ConnectedPaused
    requires Reply(s.cloud.leaf, s.toCloud[0].storage) == []
    ensures Inv(c, Happens(c, cc, s, CloudTakes), id, stock)
  {
    hide TallyOf, Balanced, Conserved, Channels, Storeds, Happens, Drain.Concerns, InputOk, NoTimeout, OfType, Reply;
    TallyFew(s.toCloud[0].storage);
    ConcernsFew(BatchClose(id), id);
    CloudMoves(c, cc, s, id, stock);
    OfferedIs(s);
    var s' := Happens(c, cc, s, CloudTakes);
    OfferBalances(Now(s), Now(s'), Tally(0, 0, 0, 0), s.store.pipe, s.refused, s.lost);
    assert s.refused + [] == s.refused;
    SameItems(s, s', stock);
  }

  lemma OfferTurn<R>(c: Config, cc: Cloud.Config, s: System<R>, id: UInt32, stock: seq<seq<R>>)
    requires Inv(c, s, id, stock) && s.toCloud != [] && s.toCloud[0].Stored? && s.toCloud[0].storage.BatchAvailable?
    requires s.toCloud[0].storage.id == id
    ensures Inv(c, Happens(c, cc, s, CloudTakes), id, stock)
  {
    hide Inv, Happens;
    match s.cloud.leaf
    case ConnectedReady =>
      OfferRead(c, cc, s, id, stock, if s.toCloud[0].storage.more then BatchRequest(id) else BatchClose(id));
    case ConnectedPaused => OfferRefused(c, cc, s, id, stock);
    case _ => OfferIgnored(c, cc, s, id, stock);
  }

  lemma DeliveryConserves<R>(s: System<R>, s': System<R>, stock: seq<seq<R>>)
    requires Conserved(s, stock) && s.lost == [] == s'.lost && s'.got == s.got + s.store.pipe
    requires s'.store == s.store.(pipe := [])
    ensures Conserved(s', stock)
  {
    assert forall t :: OfType<R>([], t) == [];
    forall t | 0 <= t < |stock|
      ensures OfType(s'.got, t) + OfType(s'.lost, t) + OfType(s'.store.pipe, t) + s'.store.queues[t] == stock[t]
    {
      OfTypeConcat(s.got, s.store.pipe, t);
    }
    hide OfType;
  }

  /** An empty answer taken: nothing is unread. */
  lemma EmptyBalances<R>(n: Tally, n': Tally, more: Tally, pipe: seq<Item<R>>, refused: seq<Item<R>>,
                         lost: seq<Item<R>>)
    requires Balanced(n, pipe, refused, lost) && n.empties > 0
    requires Plus(n', Tally(0, 0, 0, 1)) == Plus(n, more) && (more == Tally(0, 1, 0, 0) || more == Tally(0, 0, 0, 0))
    ensures Balanced(n', pipe, refused, lost)
  {
  }

  lemma EmptyTaken<R>(c: Config, cc: Cloud.Config, s: System<R>, id: UInt32, stock: seq<seq<R>>,
                      reply: seq<StorageMsg>)
    requires Inv(c, s, id, stock) && s.toCloud != [] && s.toCloud[0] == Cloud.Stored(BatchEmpty(id))
    requires Reply(s.cloud.leaf, BatchEmpty(id)) == reply && Drain.Concerns(reply, id)
    requires TallyOf(reply, reply) == Tally(0, 1, 0, 0) || TallyOf(reply, reply) == Tally(0, 0, 0, 0)
    ensures Inv(c, Happens(c, cc, s, CloudTakes), id, stock)
  {
    hide TallyOf, Balanced, Conserved, Channels, Storeds, Happens, Drain.Concerns, InputOk, NoTimeout, OfType, Reply;
    TallyFew(BatchEmpty(id));
    CloudMoves(c, cc, s, id, stock);
    OfferedIs(s);
    var s' := Happens(c, cc, s, CloudTakes);
    EmptyBalances(Now(s), Now(s'), TallyOf(reply, reply), s.store.pipe, s.refused, s.lost);
    assert s.refused + [] == s.refused;
    SameItems(s, s', stock);
  }

  lemma EmptyTurn<R>(c: Config, cc: Cloud.Config, s: System<R>, id: UInt32, stock: seq<seq<R>>)
    requires Inv(c, s, id, stock) && s.toCloud != [] && s.toCloud[0] == Cloud.Stored(BatchEmpty(id))
    ensures Inv(c, Happens(c, cc, s, CloudTakes), id, stock)
  {
    hide Inv, Happens, TallyOf, Drain.Concerns;
    TallyFew(BatchClose(id));
    ConcernsFew(BatchClose(id), id);
    if s.cloud.leaf == Cloud.ConnectedReady || s.cloud.leaf == Cloud.ConnectedPaused {
      EmptyTaken(c, cc, s, id, stock, [BatchClose(id)]);
    } else {
      EmptyTaken(c, cc, s, id, stock, []);
    }
  }

  /** The cloud machine takes an echo. */
  lemma CloudEcho<R>(c: Config, cc: Cloud.Config, s: System<R>, id: UInt32, stock: seq<seq<R>>)
    requires Inv(c, s, id, stock) && s.toCloud != []
    requires s.toCloud[0] == Cloud.Stored(BatchRequest(id)) || s.toCloud[0] == Cloud.Stored(BatchClose(id))
    ensures Inv(c, Happens(c, cc, s, CloudTakes), id, stock)
  {
    hide TallyOf, Balanced, Conserved, Channels, Storeds, Happens, Drain.Concerns, InputOk, NoTimeout, OfType;
    var msg := s.toCloud[0].storage;
    assert Reply(s.cloud.leaf, msg) == [];
    TallyFew(msg);
    ConcernsFew(msg, id);
    CloudMoves(c, cc, s, id, stock);
    var s' := Happens(c, cc, s, CloudTakes);
    assert s.refused + [] == s.refused && Now(s') == Now(s);
    SameItems(s, s', stock);
  }

  /** Anything else leaves the exchange alone. */
  lemma OtherTurn<R>(c: Config, cc: Cloud.Config, s: System<R>, id: UInt32, stock: seq<seq<R>>)
    requires Inv(c, s, id, stock) && s.toCloud != [] && !s.toCloud[0].Stored?
    ensures Inv(c, Happens(c, cc, s, CloudTakes), id, stock)
  {
    hide TallyOf, Balanced, Conserved, Drain.Concerns, InputOk, Cloud.Step, OfType, Channels, SessionOk, Silent,
        Said;
    var w := Cloud.Step(cc, s.cloud, s.toCloud[0]);
    OtherIsSilent(cc, s.cloud, s.toCloud[0]);
    SilentSaysNothing(NewOuts(s.cloud, w));
    var s' := Happens(c, cc, s, CloudTakes);
    assert ToStore<R>([]) == [] && ToCloud([]) == [];
    assert s'.toStore == s.toStore && s'.toCloud == s.toCloud[1..];
    assert Storeds(s.toCloud) == Storeds(s.toCloud[1..]);
    SameItems(s, s', stock);
  }

  lemma CloudTurn<R>(c: Config, cc: Cloud.Config, s: System<R>, id: UInt32, stock: seq<seq<R>>)
    requires Inv(c, s, id, stock) && Possible(s, CloudTakes)
    ensures Inv(c, Happens(c, cc, s, CloudTakes), id, stock)
  {
    hide Happens, Balanced, Conserved, TallyOf, SessionOk, NoTimeout;
    if !s.toCloud[0].Stored? {
      OtherTurn(c, cc, s, id, stock);
    } else {
      var msg := s.toCloud[0].storage;
      assert Storeds(s.toCloud)[0] == msg;
      if msg.BatchAvailable? {
        OfferTurn(c, cc, s, id, stock);
      } else if msg.BatchEmpty? {
        EmptyTurn(c, cc, s, id, stock);
      } else {
        CloudEcho(c, cc, s, id, stock);
      }
    }
  }

  // ---- The exchange ----

  lemma HearingKeepsInv<R>(c: Config, cc: Cloud.Config, s: System<R>, msg: Cloud.Msg, id: UInt32, stock: seq<seq<R>>)
    requires Inv(c, s, id, stock) && !msg.Stored?
    ensures Inv(c, Happens(c, cc, s, CloudHears(msg)), id, stock)
  {
    hide Balanced, TallyOf, OfType, Channels, Storeds;
    StoredsOther(s.toCloud, msg);
  }

  lemma {:induction false} AlwaysInv<R>(c: Config, cc: Cloud.Config, s: System<R>, es: seq<Event>, id: UInt32,
                                        stock: seq<seq<R>>)
    requires Inv(c, s, id, stock) && Drain.Framable(c) && Occurs(c, cc, s, es) && TimesOut !in es
    ensures Inv(c, Finally(c, cc, s, es), id, stock)
    decreases es
  {
    hide Happens, Drain.Framable, Balanced, Conserved, TallyOf, SessionOk, NoTimeout, Drain.Concerns, Channels, Storeds;
    if es != [] {
      assert es[0] in es && forall e :: e in es[1..] ==> e in es;
      match es[0] {
        case StoreTakes => StoreTurn(c, cc, s, id, stock);
        case CloudTakes => CloudTurn(c, cc, s, id, stock);
        case CloudHears(msg) => HearingKeepsInv(c, cc, s, msg, id, stock);
        case TimesOut =>
      }
      AlwaysInv(c, cc, Happens(c, cc, s, es[0]), es[1..], id, stock);
    }
  }

  lemma OneMessage<R>(msg: StorageMsg)
    ensures Channels<R>([Channel(msg)]) == [msg] && Storeds([Cloud.Stored(msg)]) == [msg]
  {
    StoredsGrow([], [msg]);
    ChannelsGrow<R>([], [msg]);
    assert [Channel(msg)] == [] + ToStore<R>([msg]) && [Cloud.Stored(msg)] == [] + ToCloud([msg]);
  }

  lemma OpeningCounts<R>(qs: seq<seq<R>>, id: UInt32, cloud: Cloud.View)
    ensures var s := Opening(qs, id, cloud);
            Now(s) == Tally(1, 0, 0, 0) && Channels(s.toStore) == [BatchRequest(id)] == Storeds(s.toCloud)
  {
    hide TallyOf, Channels, Storeds;
    OneMessage<R>(BatchRequest(id));
    TallyFew(BatchRequest(id));
  }

  lemma OpeningOk<R>(c: Config, qs: seq<seq<R>>, id: UInt32, cloud: Cloud.View)
    requires 0 < c.cap && id != 0 && |qs| == |c.types|
    ensures Inv(c, Opening(qs, id, cloud), id, qs)
  {
    hide Now, TallyOf, Channels, Storeds;
    OpeningCounts(qs, id, cloud);
    ConcernsFew(BatchRequest(id), id);
    assert forall t :: OfType<R>([], t) == [];
    hide OfType;
  }

  lemma LossIsRefusal<R>(n: Tally, pipe: seq<Item<R>>, refused: seq<Item<R>>, lost: seq<Item<R>>)
    requires Balanced(n, pipe, refused, lost)
    ensures lost <= refused && (n.closes == 0 ==> lost == refused)
  {
  }

  /** However the threads interleave and the network comes and goes, as long as the session does not time out:
      every record is delivered, lost, unread or stored, in this order, and at most what was refused is lost.
      Once the storage module has taken its messages, exactly that is lost: so the exchange loses records if and
      only if the cloud machine took an offer with unread items while paused. */
  lemma LostIffRefused<R>(c: Config, cc: Cloud.Config, qs: seq<seq<R>>, id: UInt32, cloud: Cloud.View, es: seq<Event>)
    requires 0 < c.cap && id != 0 && |qs| == |c.types| && Drain.Framable(c)
    requires Occurs(c, cc, Opening(qs, id, cloud), es) && TimesOut !in es
    ensures var s := Finally(c, cc, Opening(qs, id, cloud), es);
            && Conserved(s, qs)
            && s.lost <= s.refused && (s.toStore == [] ==> s.lost == s.refused)
  {
    hide Drain.Framable, Occurs, Happens, Conserved, SessionOk, Balanced, Drain.Concerns, Finally;
    OpeningOk(c, qs, id, cloud);
    AlwaysInv(c, cc, Opening(qs, id, cloud), es, id, qs);
    var s := Finally(c, cc, Opening(qs, id, cloud), es);
    LossIsRefusal(Now(s), s.store.pipe, s.refused, s.lost);
  }

  // ---- Runs that show it ----

  /** The run `es` is possible from `s` and leads to `w`. */
  ghost predicate Reaches<R>(c: Config, cc: Cloud.Config, s: System<R>, es: seq<Event>, w: System<R>) {
    Sane(c, s) && Occurs(c, cc, s, es) && Finally(c, cc, s, es) == w
  }

  lemma Stays<R>(c: Config, cc: Cloud.Config, s: System<R>)
    requires Sane(c, s)
    ensures Reaches(c, cc, s, [], s)
  {
  }

  lemma Begins<R>(c: Config, cc: Cloud.Config, s: System<R>, e: Event, es: seq<Event>, w: System<R>)
    requires Sane(c, s) && Possible(s, e) && Reaches(c, cc, Happens(c, cc, s, e), es, w)
    ensures Reaches(c, cc, s, [e] + es, w)
  {
    hide Happens;
    assert ([e] + es)[1..] == es;
  }

  lemma {:induction false} GoesOn<R>(c: Config, cc: Cloud.Config, s: System<R>, es: seq<Event>, mid: System<R>,
                                     more: seq<Event>, w: System<R>)
    requires Reaches(c, cc, s, es, mid) && Reaches(c, cc, mid, more, w)
    ensures Reaches(c, cc, s, es + more, w)
    decreases es
  {
    hide Happens;
    if es == [] {
      assert es + more == more;
    } else {
      GoesOn(c, cc, Happens(c, cc, s, es[0]), es[1..], mid, more, w);
      Begins(c, cc, s, es[0], es[1..] + more, w);
      assert [es[0]] + (es[1..] + more) == es + more;
    }
  }

  /** Two events in a row. */
  lemma InARow<R>(c: Config, cc: Cloud.Config, s: System<R>, e: Event, f: Event)
    requires Sane(c, s) && Possible(s, e) && Possible(Happens(c, cc, s, e), f)
    ensures Reaches(c, cc, s, [e, f], Happens(c, cc, Happens(c, cc, s, e), f))
  {
    hide Happens, Reaches;
    var s1 := Happens(c, cc, s, e);
    var s2 := Happens(c, cc, s1, f);
    Stays(c, cc, s2);
    Begins(c, cc, s1, f, [], s2);
    assert [f] + [] == [f] && [e] + [f] == [e, f];
    Begins(c, cc, s, e, [f], s2);
  }

  /** The storage module takes a request that finds records. */
  lemma TakesRequest<R>(c: Config, cc: Cloud.Config, s: System<R>, id: UInt32)
    requires Sane(c, s) && Drain.Framable(c) && id != 0 && SessionOk(s.store, id) && s.store.pipe == []
    requires s.toStore != [] && s.toStore[0] == Channel(BatchRequest(id)) && TotalCount(s.store.queues) > 0
    ensures var s', p := Happens(c, cc, s, StoreTakes), Pack(c, s.store.queues);
            && s'.store == View(PipeActive, Session(id, TotalCount(s.store.queues), |p.moved|, p.more), p.left, p.moved,
                                true)
            && s' == s.(store := s'.store, toStore := s.toStore[1..] + [Channel(Drain.OfferFor(id, p))],
                        toCloud := s.toCloud + [Cloud.Stored(Drain.OfferFor(id, p))])
  {
    hide Pack, TotalCount, Drain.Published, Drain.Framable;
    var offer := Drain.OfferFor(id, Pack(c, s.store.queues));
    Drain.BatchFacts(c, s.store.queues);
    Drain.PublishedFew<R>(offer);
    assert ToStore<R>([offer]) == [Channel(offer)] && ToCloud([offer]) == [Cloud.Stored(offer)];
    assert s.lost + [] == s.lost;
  }

  /** It takes an offer's echo, or a close of its session. */
  lemma TakesOther<R>(c: Config, cc: Cloud.Config, s: System<R>)
    requires Sane(c, s) && s.toStore != [] && s.toStore[0].Channel? && s.store.leaf == PipeActive
    requires s.toStore[0].msg.BatchAvailable? || s.toStore[0].msg == BatchClose(s.store.session.id)
    ensures var s' := Happens(c, cc, s, StoreTakes);
            s' == if s.toStore[0].msg.BatchAvailable? then s.(toStore := s.toStore[1..])
                  else s.(store := Close(s.store), toStore := s.toStore[1..], lost := s.lost + s.store.pipe)
  {
    Drain.PublishedFew<R>(s.toStore[0].msg);
    assert ToStore<R>([]) == [] && ToCloud([]) == [] && s.lost + [] == s.lost;
    hide Drain.Published;
  }

  /** The cloud machine takes a message of the storage channel. */
  lemma Hears<R>(c: Config, cc: Cloud.Config, s: System<R>, reply: seq<StorageMsg>)
    requires Sane(c, s) && s.toCloud != [] && s.toCloud[0].Stored?
    requires reply == Reply(s.cloud.leaf, s.toCloud[0].storage)
    ensures var s', msg := Happens(c, cc, s, CloudTakes), s.toCloud[0].storage;
            var given := s.cloud.leaf == Cloud.ConnectedReady && msg.BatchAvailable?;
            var refuses := s.cloud.leaf == Cloud.ConnectedPaused && msg.BatchAvailable?;
            && s'.cloud.leaf == s.cloud.leaf && s'.lost == s.lost
            && s'.store == (if given then s.store.(pipe := []) else s.store)
            && s'.got == (if given then s.got + s.store.pipe else s.got)
            && s'.refused == (if refuses then s.refused + s.store.pipe else s.refused)
            && s'.toStore == s.toStore + ToStore(reply) && s'.toCloud == s.toCloud[1..] + ToCloud(reply)
  {
    hide Cloud.Step, NewOuts, Said, Reply;
    CloudReplies(cc, s.cloud, s.toCloud[0].storage);
  }

  /** The network goes while an offer is on its way. */
  lemma TakesOutage<R>(c: Config, cc: Cloud.Config, s: System<R>)
    requires Sane(c, s) && s.toCloud != [] && s.toCloud[0] == Cloud.NetworkDisconnected
    requires s.cloud.leaf == Cloud.ConnectedReady
    ensures var s' := Happens(c, cc, s, CloudTakes);
            && s'.cloud.leaf == Cloud.ConnectedPaused
            && s' == s.(cloud := s'.cloud, toCloud := s.toCloud[1..])
  {
    var w := Cloud.Step(cc, s.cloud, s.toCloud[0]);
    assert NewOuts(s.cloud, w) == [Cloud.SayDisconnected] && [Cloud.SayDisconnected][..0] == [];
    assert ToStore<R>([]) == [] && ToCloud([]) == [];
    assert s.toStore + [] == s.toStore && s.toCloud[1..] + [] == s.toCloud[1..];
  }

  /** From the offer on its way behind the outage. */
  lemma OfferRefusedAndDropped<R>(c: Config, cc: Cloud.Config, s: System<R>, offer: StorageMsg) returns (w: System<R>)
    requires Sane(c, s) && s.cloud.leaf == Cloud.ConnectedReady && s.store.leaf == PipeActive && offer.BatchAvailable?
    requires s.toCloud == [Cloud.NetworkDisconnected, Cloud.Stored(offer)] && s.toStore == [Channel(offer)]
    requires s.store.session.id == offer.id
    ensures Reaches(c, cc, s, [CloudTakes, CloudTakes] + [StoreTakes, StoreTakes], w)
    ensures w.store == Close(s.store) && w.lost == s.lost + s.store.pipe && w.got == s.got
  {
    hide Happens, Reaches, Reply, Close;
    TakesOutage(c, cc, s);
    var s1 := Happens(c, cc, s, CloudTakes);
    PausedReplies(offer);
    Hears(c, cc, s1, [BatchClose(offer.id)]);
    assert ToStore<R>([BatchClose(offer.id)]) == [Channel(BatchClose(offer.id))];
    var s2 := Happens(c, cc, s1, CloudTakes);
    assert s2.toStore == [Channel(offer), Channel(BatchClose(offer.id))];
    TakesOther(c, cc, s2);
    var s3 := Happens(c, cc, s2, StoreTakes);
    TakesOther(c, cc, s3);
    w := Happens(c, cc, s3, StoreTakes);
    InARow(c, cc, s, CloudTakes, CloudTakes);
    InARow(c, cc, s2, StoreTakes, StoreTakes);
    GoesOn(c, cc, s, [CloudTakes, CloudTakes], s2, [StoreTakes, StoreTakes], w);
  }

  lemma PausedReplies(offer: StorageMsg)
    requires offer.BatchAvailable?
    ensures Reply(Cloud.ConnectedPaused, offer) == [BatchClose(offer.id)]
    ensures Reply(Cloud.ConnectedReady, BatchRequest(offer.id)) == []
    ensures offer.more ==> Reply(Cloud.ConnectedReady, offer) == [BatchRequest(offer.id)]
  {
  }

  /** The network goes before a batch is offered: the storage module has taken the batch out of the backend, is
      told to close its session, and throws the batch away. */
  lemma OutageLosesBatch<R>(c: Config, cc: Cloud.Config, qs: seq<seq<R>>, id: UInt32, cloud: Cloud.View)
    returns (s: System<R>)
    requires 0 < c.cap && id != 0 && |qs| == |c.types| && Drain.Framable(c) && TotalCount(qs) > 0
    requires cloud.leaf == Cloud.ConnectedReady
    ensures var toOffer := [CloudHears(Cloud.NetworkDisconnected), StoreTakes];
            var refusal := [CloudTakes] + ([CloudTakes, CloudTakes] + [StoreTakes, StoreTakes]);
            Reaches(c, cc, Opening(qs, id, cloud), toOffer + refusal, s)
    ensures s.store.leaf == BufferIdle && s.store.queues == Pack(c, qs).left
    ensures s.lost == Pack(c, qs).moved && s.got == []
  {
    hide Pack, TotalCount, Drain.Framable, Happens, Reaches, Reply;
    var s0, p := Opening(qs, id, cloud), Pack(c, qs);
    var offer, gone := Drain.OfferFor(id, p), CloudHears(Cloud.NetworkDisconnected);
    JustQueued(c, cc, s0, Cloud.NetworkDisconnected);
    var s1 := Happens(c, cc, s0, gone);
    TakesRequest(c, cc, s1, id);
    var s2 := Happens(c, cc, s1, StoreTakes);
    assert s2.toCloud == [Cloud.Stored(BatchRequest(id)), Cloud.NetworkDisconnected, Cloud.Stored(offer)];
    PausedReplies(offer);
    Hears(c, cc, s2, []);
    assert ToStore<R>([]) == [] && ToCloud([]) == [];
    var s3 := Happens(c, cc, s2, CloudTakes);
    assert s3.toCloud == [Cloud.NetworkDisconnected, Cloud.Stored(offer)] && s3.toStore == [Channel(offer)];
    s := OfferRefusedAndDropped(c, cc, s3, offer);
    var rest := [CloudTakes, CloudTakes] + [StoreTakes, StoreTakes];
    Begins(c, cc, s2, CloudTakes, rest, s);
    InARow(c, cc, s0, gone, StoreTakes);
    GoesOn(c, cc, s0, [gone, StoreTakes], s2, [CloudTakes] + rest, s);
    assert [] + p.moved == p.moved;
  }

  lemma JustQueued<R>(c: Config, cc: Cloud.Config, s: System<R>, msg: Cloud.Msg)
    requires Sane(c, s)
    ensures !msg.Stored? ==> Happens(c, cc, s, CloudHears(msg)) == s.(toCloud := s.toCloud + [msg])
    ensures s.store.armed ==> Happens(c, cc, s, TimesOut) == s.(toStore := s.toStore + [SessionTimeout])
  {
  }

  /** The storage module takes its session's timeout with nothing unread, and tells everyone, itself included. */
  lemma TakesTimeout<R>(c: Config, cc: Cloud.Config, s: System<R>)
    requires Sane(c, s) && s.toStore != [] && s.toStore[0] == SessionTimeout && s.store.leaf == PipeActive
    ensures var s', close := Happens(c, cc, s, StoreTakes), BatchClose(s.store.session.id);
            s' == s.(store := Close(s.store), lost := s.lost + s.store.pipe,
                     toStore := s.toStore[1..] + [Channel(close)], toCloud := s.toCloud + [Cloud.Stored(close)])
  {
    var close := BatchClose(s.store.session.id);
    Drain.PublishedFew<R>(close);
    assert ToStore<R>([close]) == [Channel(close)] && ToCloud([close]) == [Cloud.Stored(close)];
    hide Drain.Published;
  }

  /** A session times out while the cloud machine is reading, and its timeout is taken just before the request
      that follows: the request opens a new session, and the timeout's own close ends it. */
  lemma EchoDropsBatch<R>(c: Config, cc: Cloud.Config, s: System<R>, offer: StorageMsg) returns (w: System<R>)
    requires Sane(c, s) && Drain.Framable(c) && s.cloud.leaf == Cloud.ConnectedReady && s.store.leaf == PipeActive
    requires offer.BatchAvailable? && offer.more && s.store.session.id == offer.id != 0
    requires s.toCloud == [Cloud.Stored(offer)] && s.toStore == [SessionTimeout] && TotalCount(s.store.queues) > 0
    ensures Reaches(c, cc, s, [CloudTakes, StoreTakes] + [StoreTakes, StoreTakes], w)
    ensures w.got == s.got + s.store.pipe && w.lost == s.lost + Pack(c, s.store.queues).moved
    ensures w.refused == s.refused && w.store.leaf == BufferIdle
  {
    hide TotalCount, Pack, Drain.Framable, Happens, Reaches, Reply;
    var next, close := BatchRequest(offer.id), BatchClose(offer.id);
    PausedReplies(offer);
    Hears(c, cc, s, [next]);
    assert ToStore<R>([next]) == [Channel(next)];
    var s1 := Happens(c, cc, s, CloudTakes);
    assert s1.toStore == [SessionTimeout, Channel(next)];
    TakesTimeout(c, cc, s1);
    var s2 := Happens(c, cc, s1, StoreTakes);
    assert s2.toStore == [Channel(next), Channel(close)] && s2.lost == s.lost;
    TakesRequest(c, cc, s2, offer.id);
    var s3 := Happens(c, cc, s2, StoreTakes);
    assert s3.toStore[0] == Channel(close);
    TakesOther(c, cc, s3);
    w := Happens(c, cc, s3, StoreTakes);
    InARow(c, cc, s, CloudTakes, StoreTakes);
    InARow(c, cc, s2, StoreTakes, StoreTakes);
    GoesOn(c, cc, s, [CloudTakes, StoreTakes], s2, [StoreTakes, StoreTakes], w);
  }

  /** A batch is offered and the session times out before the cloud machine has read it. */
  lemma OfferTimesOut<R>(c: Config, cc: Cloud.Config, qs: seq<seq<R>>, id: UInt32, cloud: Cloud.View)
    returns (w: System<R>)
    requires 0 < c.cap && id != 0 && |qs| == |c.types| && Drain.Framable(c) && TotalCount(qs) > 0
    requires cloud.leaf == Cloud.ConnectedReady
    ensures Reaches(c, cc, Opening(qs, id, cloud), [StoreTakes, StoreTakes] + [TimesOut, CloudTakes], w)
    ensures var p := Pack(c, qs);
            && Sane(c, w) && w.store.leaf == PipeActive && w.store.session.id == id && w.store.pipe == p.moved
            && w.store.queues == p.left && w.cloud.leaf == Cloud.ConnectedReady
            && w.toStore == [SessionTimeout] && w.toCloud == [Cloud.Stored(Drain.OfferFor(id, p))]
            && w.got == w.lost == w.refused == []
  {
    hide Pack, TotalCount, Drain.Framable, Happens, Reaches, Reply;
    var s0 := Opening(qs, id, cloud);
    var offer := Drain.OfferFor(id, Pack(c, qs));
    TakesRequest(c, cc, s0, id);
    var s1 := Happens(c, cc, s0, StoreTakes);
    assert s1.toStore == [Channel(offer)] && s1.toCloud == [Cloud.Stored(BatchRequest(id)), Cloud.Stored(offer)];
    TakesOther(c, cc, s1);
    var s2 := Happens(c, cc, s1, StoreTakes);
    JustQueued(c, cc, s2, Cloud.Other);
    var s3 := Happens(c, cc, s2, TimesOut);
    assert s3.toStore == [SessionTimeout];
    PausedReplies(offer);
    Hears(c, cc, s3, []);
    assert ToStore<R>([]) == [] && ToCloud([]) == [];
    w := Happens(c, cc, s3, CloudTakes);
    InARow(c, cc, s0, StoreTakes, StoreTakes);
    InARow(c, cc, s2, TimesOut, CloudTakes);
    GoesOn(c, cc, s0, [StoreTakes, StoreTakes], s2, [TimesOut, CloudTakes], w);
  }

  /** So with a timeout a batch can be lost that nobody refused: the second, if one batch does not take all. */
  lemma TimeoutLosesNextBatch<R>(c: Config, cc: Cloud.Config, qs: seq<seq<R>>, id: UInt32, cloud: Cloud.View)
    returns (s: System<R>)
    requires 0 < c.cap && id != 0 && |qs| == |c.types| && Drain.Framable(c) && TotalCount(qs) > 0
    requires cloud.leaf == Cloud.ConnectedReady && TotalCount(Pack(c, qs).left) > 0
    ensures Reaches(c, cc, Opening(qs, id, cloud),
                    [StoreTakes, StoreTakes] + [TimesOut, CloudTakes]
                    + ([CloudTakes, StoreTakes] + [StoreTakes, StoreTakes]), s)
    ensures s.got == Pack(c, qs).moved && s.lost == Pack(c, Pack(c, qs).left).moved && s.refused == []
  {
    hide Pack, TotalCount, Drain.Framable, Happens, Reaches;
    var s0, p := Opening(qs, id, cloud), Pack(c, qs);
    Drain.BatchFacts(c, qs);
    var mid := OfferTimesOut(c, cc, qs, id, cloud);
    s := EchoDropsBatch(c, cc, mid, Drain.OfferFor(id, p));
    GoesOn(c, cc, s0, [StoreTakes, StoreTakes] + [TimesOut, CloudTakes], mid,
           [CloudTakes, StoreTakes] + [StoreTakes, StoreTakes], s);
  }
}
