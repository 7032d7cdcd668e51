/** Storage and cloud together, over the shared STORAGE_CHAN: every publication reaches the queue of both
    subscribers, each takes its messages in order, and their threads alternate in any way. Started by one
    batch request, the exchange empties the backend into the cloud. */
module Drain {
  import opened Common
  import opened StorageSpec
  import opened Packing
  import Slots

  /** `got` is what storage_batch_read has handed to the cloud. */
  datatype System<R> = System(store: View<R>, toStore: seq<StorageMsg>, toCloud: seq<StorageMsg>, got: seq<Item<R>>)

  datatype Turn = StoreTurn | CloudTurn

  function Published<R>(outs: seq<Output<R>>): seq<StorageMsg> {
    if outs == [] then []
    else Published(outs[..|outs| - 1]) + (if outs[|outs| - 1].Publish? then [outs[|outs| - 1].msg] else [])
  }

  /** What the connected cloud module publishes when it takes `msg`; it has read the pipe dry first if a
      batch was offered. */
  function Answer(msg: StorageMsg): seq<StorageMsg> {
    match msg
    case BatchAvailable(id, _, more) => if more then [BatchRequest(id)] else [BatchClose(id)]
    case BatchEmpty(id) => [BatchClose(id)]
    case BatchError(id) => [BatchClose(id)]
    case _ => []
  }

  predicate Enabled<R>(s: System<R>, turn: Turn) {
    match turn
    case StoreTurn => s.toStore != []
    case CloudTurn => s.toCloud != []
  }

  function Take<R>(c: Config, s: System<R>, turn: Turn): (s': System<R>)
    requires 0 < c.cap && |s.store.queues| == |c.types| && Enabled(s, turn)
    ensures |s'.store.queues| == |c.types|
  {
    match turn
    case StoreTurn =>
      var (v, outs) := Step(c, s.store, Channel(s.toStore[0]));
      System(v, s.toStore[1..] + Published(outs), s.toCloud + Published(outs), s.got)
    case CloudTurn =>
      var msg := s.toCloud[0];
      var s1 := if msg.BatchAvailable? then s.(got := s.got + s.store.pipe, store := s.store.(pipe := [])) else s;
      s1.(toStore := s.toStore + Answer(msg), toCloud := s.toCloud[1..] + Answer(msg))
  }

  /** A schedule that only gives turns to threads with a message waiting, and where it ends. */
  ghost predicate Runs<R>(c: Config, s: System<R>, turns: seq<Turn>)
    requires 0 < c.cap && |s.store.queues| == |c.types|
    decreases turns
  {
    turns != [] ==> Enabled(s, turns[0]) && Runs(c, Take(c, s, turns[0]), turns[1..])
  }

  ghost function Outcome<R>(c: Config, s: System<R>, turns: seq<Turn>): (s': System<R>)
    requires 0 < c.cap && |s.store.queues| == |c.types| && Runs(c, s, turns)
    decreases turns
  {
    if turns == [] then s else Outcome(c, Take(c, s, turns[0]), turns[1..])
  }

  predicate Quiet<R>(s: System<R>) {
    s.toStore == [] && s.toCloud == []
  }

  /** One request with a proper id meets an idle storage module. */
  function Opening<R>(qs: seq<seq<R>>, id: UInt32): System<R> {
    System(StartUp(BufferIdle, qs), [BatchRequest(id)], [BatchRequest(id)], [])
  }

  // ---- Counting messages ----

  datatype Kind = Request | Close | Available | Empty | Other

  function KindOf(msg: StorageMsg): Kind {
    match msg
    case BatchRequest(_) => Request
    case BatchClose(_) => Close
    case BatchAvailable(_, _, _) => Available
    case BatchEmpty(_) => Empty
    case _ => Other
  }

  function Count(msgs: seq<StorageMsg>, kind: Kind): nat {
    if msgs == [] then 0 else (if KindOf(msgs[0]) == kind then 1 else 0) + Count(msgs[1..], kind)
  }

  lemma {:induction false} CountConcat(a: seq<StorageMsg>, b: seq<StorageMsg>, kind: Kind)
    ensures Count(a + b, kind) == Count(a, kind) + Count(b, kind)
  {
    if a == [] {
      assert a + b == b;
    } else {
      CountConcat(a[1..], b, kind);
      assert (a + b)[1..] == a[1..] + b;
    }
  }

  // ---- The invariant ----

  /** The exchange is about the session `id` only. */
  ghost predicate Concerns(msgs: seq<StorageMsg>, id: UInt32) {
    forall m :: m in msgs ==>
      m == BatchRequest(id) || m == BatchClose(id) || (m.BatchAvailable? && m.id == id) || m == BatchEmpty(id)
  }

  datatype Phase = Requesting | Offered | Finishing

  function PhaseOf<R>(s: System<R>): Phase {
    if Count(s.toStore, Request) > 0 then Requesting
    else if Count(s.toCloud, Available) > 0 then Offered
    else Finishing
  }

  /** What each type has delivered, offers and holds is the stock it began with. */
  ghost predicate Conserved<R>(s: System<R>, stock: seq<seq<R>>) {
    && |stock| == |s.store.queues|
    && forall t :: 0 <= t < |stock| ==>
         OfType(s.got, t) + OfType(s.store.pipe, t) + s.store.queues[t] == stock[t]
  }

  ghost predicate PhaseOk<R>(s: System<R>, id: UInt32) {
    var v, n := s.store, TotalCount(s.store.queues);
    && Count(s.toStore, Request) + Count(s.toCloud, Available) <= 1
    && v.leaf != Passthrough
    && (v.leaf == PipeActive ==> v.session.id == id)
    && match PhaseOf(s)
       case Requesting =>
         && v.pipe == [] && Count(s.toStore, Close) == 0 && Count(s.toCloud, Empty) == 0
         && (v.leaf == PipeActive ==> n > 0)
       case Offered =>
         && v.leaf == PipeActive && Count(s.toStore, Close) == 0 && Count(s.toCloud, Empty) == 0
         && forall m :: m in s.toCloud && m.BatchAvailable? ==> (m.more <==> n > 0)
       case Finishing =>
         && v.pipe == [] && n == 0
         && (v.leaf == PipeActive ==> Count(s.toStore, Close) + Count(s.toCloud, Empty) > 0)
  }

  ghost predicate Inv<R>(c: Config, s: System<R>, id: UInt32, stock: seq<seq<R>>) {
    && 0 < c.cap && id != 0 && |s.store.queues| == |c.types|
    && Concerns(s.toStore, id) && Concerns(s.toCloud, id)
    && Conserved(s, stock)
    && PhaseOk(s, id)
  }

  /** Records of every type fit a frame header. */
  ghost predicate Framable(c: Config) {
    forall t :: 0 <= t < |c.types| ==> c.types[t].size <= c.maxData && c.types[t].size <= UINT16_MAX
  }

  /** Handled messages still to come, at most. */
  ghost function Bonus<R>(s: System<R>): nat {
    var n := TotalCount(s.store.queues);
    match PhaseOf(s)
    case Requesting => 4 * n + 8
    case Offered => if n > 0 then 4 * n + 10 else 2
    case Finishing => 2 * Count(s.toCloud, Empty)
  }

  ghost function Measure<R>(s: System<R>): nat {
    |s.toStore| + |s.toCloud| + Bonus(s)
  }

  /** Every record waiting can travel: its frame fits the batch buffer. */
  ghost predicate Drainable<R>(c: Config, qs: seq<seq<R>>)
    requires |qs| == |c.types|
  {
    forall t :: 0 <= t < |qs| && qs[t] != [] ==> FrameSize(c, t) <= c.budget
  }

  // ---- One turn ----

  lemma CountTurn(q: seq<StorageMsg>, more: seq<StorageMsg>, kind: Kind)
    requires q != []
    ensures Count(q[1..] + more, kind) + (if KindOf(q[0]) == kind then 1 else 0) == Count(q, kind) + Count(more, kind)
  {
    CountConcat(q[1..], more, kind);
  }

  lemma {:induction false} CountZero(q: seq<StorageMsg>, kind: Kind)
    requires Count(q, kind) == 0
    ensures forall m :: m in q ==> KindOf(m) != kind
  {
    if q != [] {
      CountZero(q[1..], kind);
      assert forall m :: m in q ==> m == q[0] || m in q[1..];
    }
  }

  lemma CountOne(msg: StorageMsg, kind: Kind)
    ensures Count([msg], kind) == (if KindOf(msg) == kind then 1 else 0)
    ensures Count([msg, msg], kind) == (if KindOf(msg) == kind then 2 else 0)
    ensures Count([], kind) == 0
  {
    assert [msg, msg][1..] == [msg] && [msg][1..] == [];
  }

  /** The counts that the phases speak of, after a turn. */
  lemma CountsAfter(taken: seq<StorageMsg>, other: seq<StorageMsg>, more: seq<StorageMsg>, kind: Kind)
    requires taken != []
    ensures Count(taken[1..] + more, kind) + (if KindOf(taken[0]) == kind then 1 else 0)
         == Count(taken, kind) + Count(more, kind)
    ensures Count(other + more, kind) == Count(other, kind) + Count(more, kind)
  {
    CountTurn(taken, more, kind);
    CountConcat(other, more, kind);
  }

  lemma ConcernsAfter(q: seq<StorageMsg>, more: seq<StorageMsg>, id: UInt32)
    requires Concerns(q, id) && Concerns(more, id)
    ensures Concerns(q + more, id)
    ensures q != [] ==> Concerns(q[1..] + more, id)
  {
  }

  lemma PublishedFew<R>(msg: StorageMsg)
    ensures Published<R>([]) == []
    ensures Published<R>([Publish(msg)]) == [msg]
    ensures Published<R>([Publish(msg), Publish(msg)]) == [msg, msg]
  {
    var out: Output<R> := Publish(msg);
    assert [out, out][..1] == [out] && [out][..0] == [];
  }

  /** A batch of framable records never fails, says exactly whether more is left, and conserves them. */
  lemma BatchFacts<R>(c: Config, qs: seq<seq<R>>)
    requires |qs| == |c.types| && Framable(c)
    ensures var p := Pack(c, qs);
            && !p.failed && (p.more <==> TotalCount(p.left) > 0)
            && TotalCount(p.left) + |p.moved| == TotalCount(qs)
            && forall t :: 0 <= t < |qs| ==> OfType(p.moved, t) + p.left[t] == qs[t]
  {
    PackFailsIff(c, qs);
    PackMoreIff(c, qs);
    PackCount(c, qs);
    TotalZero(Pack(c, qs).left);
    forall t | 0 <= t < |qs|
      ensures OfType(Pack(c, qs).moved, t) + Pack(c, qs).left[t] == qs[t]
    {
      PackConserves(c, qs, t);
    }
    hide Pack, TotalCount, OfType;
  }

  function OfferFor<R>(id: UInt32, p: Packed<R>): StorageMsg {
    BatchAvailable(id, Min(|p.moved|, UINT16_MAX), p.more)
  }

  /** What a request does in a session that finds records. */
  lemma RequestPacks<R>(c: Config, s: System<R>, id: UInt32, stock: seq<seq<R>>)
    requires Inv(c, s, id, stock) && Framable(c) && s.toStore != [] && s.toStore[0] == BatchRequest(id)
    requires TotalCount(s.store.queues) > 0
    ensures var s', p := Take(c, s, StoreTurn), Pack(c, s.store.queues);
            && s' == System(s.store.(leaf := PipeActive, queues := p.left, pipe := p.moved, armed := true,
                              session := Session(id, TotalCount(s.store.queues), |p.moved|, p.more)),
                            s.toStore[1..] + [OfferFor(id, p)], s.toCloud + [OfferFor(id, p)], s.got)
            && (p.more <==> TotalCount(p.left) > 0)
            && TotalCount(p.left) + |p.moved| == TotalCount(s.store.queues)
            && Conserved(s', stock)
  {
    hide Pack, TotalCount, Count, Conserved, OfType, Published, Framable;
    RequestCounts(s, id);
    BatchFacts(c, s.store.queues);
    PublishedFew<R>(OfferFor(id, Pack(c, s.store.queues)));
    var s' := Take(c, s, StoreTurn);
    ConservedByBatch(s, s', stock);
  }

  lemma ConservedByBatch<R>(s: System<R>, s': System<R>, stock: seq<seq<R>>)
    requires Conserved(s, stock) && s.store.pipe == [] && s'.got == s.got
    requires |s'.store.queues| == |s.store.queues|
    requires forall t :: 0 <= t < |s.store.queues| ==>
               OfType(s'.store.pipe, t) + s'.store.queues[t] == s.store.queues[t]
    ensures Conserved(s', stock)
  {
    assert forall t :: OfType<R>([], t) == [];
    hide OfType;
    forall t | 0 <= t < |stock|
      ensures OfType(s.got, t) + OfType(s'.store.pipe, t) + s'.store.queues[t] == stock[t]
    {
      assert OfType(s.got, t) + OfType(s'.store.pipe, t) + s'.store.queues[t]
          == OfType(s.got, t) + (OfType(s'.store.pipe, t) + s'.store.queues[t]);
      assert OfType(s.got, t) + [] == OfType(s.got, t);
    }
  }

  lemma {:induction false} FirstNonEmpty<R>(qs: seq<seq<R>>, from: nat) returns (u: nat)
    requires from <= |qs| && exists t :: from <= t < |qs| && qs[t] != []
    requires forall t :: 0 <= t < from ==> qs[t] == []
    ensures u < |qs| && qs[u] != [] && forall t :: 0 <= t < u ==> qs[t] == []
    decreases |qs| - from
  {
    if qs[from] != [] {
      u := from;
    } else {
      u := FirstNonEmpty(qs, from + 1);
    }
  }

  /** If every waiting record can travel, each batch takes at least one. */
  lemma BatchProgress<R>(c: Config, qs: seq<seq<R>>)
    requires |qs| == |c.types| && Framable(c) && Drainable(c, qs) && TotalCount(qs) > 0
    ensures |Pack(c, qs).moved| > 0
  {
    TotalZero(qs);
    var u := FirstNonEmpty(qs, 0);
    PackFailsIff(c, qs);
    PackProgress(c, qs, u);
  }

  lemma StillDrainable<R>(c: Config, s: System<R>, stock: seq<seq<R>>)
    requires |s.store.queues| == |c.types| == |stock| && Conserved(s, stock) && Drainable(c, stock)
    ensures Drainable(c, s.store.queues)
  {
    forall t | 0 <= t < |stock| && s.store.queues[t] != []
      ensures stock[t] != []
    {
      assert |stock[t]| >= |s.store.queues[t]|;
    }
  }

  /** What a turn must achieve. */
  ghost predicate GoodTurn<R>(c: Config, s: System<R>, s': System<R>, id: UInt32, stock: seq<seq<R>>) {
    && Inv(c, s', id, stock)
    && (Drainable(c, stock) ==> Measure(s') < Measure(s))
  }

  lemma NowRequesting<R>(s: System<R>, id: UInt32)
    requires Count(s.toStore, Request) == 1 && Count(s.toCloud, Available) == 0
    requires Count(s.toStore, Close) == 0 && Count(s.toCloud, Empty) == 0
    requires s.store.pipe == [] && s.store.leaf == PipeActive && s.store.session.id == id
    requires TotalCount(s.store.queues) > 0
    ensures PhaseOk(s, id) && Bonus(s) == 4 * TotalCount(s.store.queues) + 8
  {
  }

  lemma NowOffered<R>(s: System<R>, id: UInt32)
    requires Count(s.toStore, Request) == 0 && Count(s.toCloud, Available) == 1
    requires Count(s.toStore, Close) == 0 && Count(s.toCloud, Empty) == 0
    requires s.store.leaf == PipeActive && s.store.session.id == id
    requires forall m :: m in s.toCloud && m.BatchAvailable? ==> (m.more <==> TotalCount(s.store.queues) > 0)
    ensures PhaseOk(s, id)
    ensures Bonus(s) == if TotalCount(s.store.queues) > 0 then 4 * TotalCount(s.store.queues) + 10 else 2
  {
  }

  lemma NowFinishing<R>(s: System<R>, id: UInt32)
    requires Count(s.toStore, Request) == 0 && Count(s.toCloud, Available) == 0
    requires s.store.pipe == [] && TotalCount(s.store.queues) == 0 && s.store.leaf != Passthrough
    requires s.store.leaf == PipeActive ==>
               s.store.session.id == id && Count(s.toStore, Close) + Count(s.toCloud, Empty) > 0
    ensures PhaseOk(s, id) && Bonus(s) == 2 * Count(s.toCloud, Empty)
  {
  }

  lemma RequestTurn<R>(c: Config, s: System<R>, id: UInt32, stock: seq<seq<R>>)
    requires Inv(c, s, id, stock) && Framable(c) && s.toStore != [] && s.toStore[0] == BatchRequest(id)
    requires TotalCount(s.store.queues) > 0
    ensures GoodTurn(c, s, Take(c, s, StoreTurn), id, stock)
  {
    assert |stock| == |c.types|;
    hide Pack, TotalCount, Conserved, Take, Framable, Drainable, Published;
    RequestPacks(c, s, id, stock);
    var s', p := Take(c, s, StoreTurn), Pack(c, s.store.queues);
    var offer := OfferFor(id, p);
    RequestCounts(s, id);
    OfferCounts(s.toStore, s.toCloud, offer);
    hide Count, PhaseOk, Bonus;
    NowOffered(s', id);
    ConcernsAfter(s.toStore, [offer], id);
    ConcernsAfter(s.toCloud, [offer], id);
    SmallerIfDrainable(c, s, stock);
  }

  lemma RequestCounts<R>(s: System<R>, id: UInt32)
    requires PhaseOk(s, id) && s.toStore != [] && s.toStore[0] == BatchRequest(id)
    ensures Count(s.toStore, Request) == 1 && Count(s.toCloud, Available) == 0
    ensures Count(s.toStore, Close) == 0 && Count(s.toCloud, Empty) == 0
    ensures Bonus(s) == 4 * TotalCount(s.store.queues) + 8
    ensures forall m :: m in s.toCloud ==> !m.BatchAvailable?
  {
    CountOne(s.toStore[0], Request);
    CountTurn(s.toStore, [], Request);
    CountZero(s.toCloud, Available);
  }

  lemma SmallerIfDrainable<R>(c: Config, s: System<R>, stock: seq<seq<R>>)
    requires |s.store.queues| == |c.types| == |stock| && Conserved(s, stock) && Framable(c)
    requires TotalCount(s.store.queues) > 0
    ensures Drainable(c, stock) ==> |Pack(c, s.store.queues).moved| > 0
  {
    if Drainable(c, stock) {
      StillDrainable(c, s, stock);
      BatchProgress(c, s.store.queues);
    }
  }

  /** The counts after a request has been answered by an offer. */
  lemma OfferCounts(toStore: seq<StorageMsg>, toCloud: seq<StorageMsg>, offer: StorageMsg)
    requires toStore != [] && toStore[0].BatchRequest? && offer.BatchAvailable?
    ensures Count(toStore[1..] + [offer], Request) == Count(toStore, Request) - 1
    ensures Count(toStore[1..] + [offer], Close) == Count(toStore, Close)
    ensures Count(toCloud + [offer], Available) == Count(toCloud, Available) + 1
    ensures Count(toCloud + [offer], Empty) == Count(toCloud, Empty)
  {
    CountsAfter(toStore, toCloud, [offer], Request);
    CountsAfter(toStore, toCloud, [offer], Close);
    CountsAfter(toStore, toCloud, [offer], Available);
    CountsAfter(toStore, toCloud, [offer], Empty);
    CountOne(offer, Request);
    CountOne(offer, Close);
    CountOne(offer, Available);
    CountOne(offer, Empty);
    hide Count;
  }

  lemma EmptyTurn<R>(c: Config, s: System<R>, id: UInt32, stock: seq<seq<R>>)
    requires Inv(c, s, id, stock) && s.toStore != [] && s.toStore[0] == BatchRequest(id)
    requires TotalCount(s.store.queues) == 0
    ensures GoodTurn(c, s, Take(c, s, StoreTurn), id, stock)
  {
    var empty: StorageMsg := BatchEmpty(id);
    CountOne(s.toStore[0], Request);
    CountTurn(s.toStore, [], Request);
    PublishedFew<R>(empty);
    EmptyCounts(s.toStore, s.toCloud, empty);
    assert Bonus(s) == 8;
    var s' := Take(c, s, StoreTurn);
    assert s' == System(s.store.(leaf := PipeActive, session := s.store.session.(id := id)),
                        s.toStore[1..] + [empty, empty], s.toCloud + [empty, empty], s.got) by {
      hide Conserved, Count, TotalCount;
    }
    assert Conserved(s', stock);
    hide TotalCount, Conserved, Take, Count, Framable, Drainable, PhaseOk, Bonus;
    NowFinishing(s', id);
    ConcernsAfter(s.toStore, [empty, empty], id);
    ConcernsAfter(s.toCloud, [empty, empty], id);
  }

  lemma EmptyCounts(toStore: seq<StorageMsg>, toCloud: seq<StorageMsg>, empty: StorageMsg)
    requires toStore != [] && toStore[0].BatchRequest? && empty.BatchEmpty?
    ensures var more := [empty, empty];
            && Count(toStore[1..] + more, Request) == Count(toStore, Request) - 1
            && Count(toCloud + more, Available) == Count(toCloud, Available)
            && Count(toCloud + more, Empty) == Count(toCloud, Empty) + 2
  {
    CountsAfter(toStore, toCloud, [empty, empty], Request);
    CountsAfter(toStore, toCloud, [empty, empty], Available);
    CountsAfter(toStore, toCloud, [empty, empty], Empty);
    CountOne(empty, Request);
    CountOne(empty, Available);
    CountOne(empty, Empty);
    hide Count;
  }

  lemma RestCounts(q: seq<StorageMsg>, kind: Kind)
    requires q != []
    ensures Count(q[1..], kind) == Count(q, kind) - if KindOf(q[0]) == kind then 1 else 0
  {
  }

  lemma OtherStoreEffect<R>(c: Config, s: System<R>, id: UInt32, stock: seq<seq<R>>)
    requires Inv(c, s, id, stock) && s.toStore != [] && s.toStore[0] != BatchRequest(id)
    ensures var closes := s.toStore[0] == BatchClose(id) && s.store.leaf == PipeActive;
            Take(c, s, StoreTurn)
            == System(if closes then StorageSpec.Close(s.store) else s.store, s.toStore[1..], s.toCloud, s.got)
  {
    assert s.toStore[0] in s.toStore;
    PublishedFew<R>(s.toStore[0]);
    assert s.toStore[1..] + [] == s.toStore[1..] && s.toCloud + [] == s.toCloud;
    hide Published, Conserved, PhaseOk, Start;
  }

  /** The storage module takes anything but a request. */
  lemma OtherStoreTurn<R>(c: Config, s: System<R>, id: UInt32, stock: seq<seq<R>>)
    requires Inv(c, s, id, stock) && s.toStore != [] && s.toStore[0] != BatchRequest(id)
    ensures GoodTurn(c, s, Take(c, s, StoreTurn), id, stock)
  {
    hide Take, TotalCount, Drainable, OfType;
    OtherStoreEffect(c, s, id, stock);
    RestCounts(s.toStore, Request);
    RestCounts(s.toStore, Close);
    hide Count;
    assert s.toStore[0] in s.toStore;
    assert forall m :: m in s.toStore[1..] ==> m in s.toStore;
  }

  lemma OfferCounted<R>(s: System<R>, id: UInt32)
    requires PhaseOk(s, id) && s.toCloud != [] && s.toCloud[0].BatchAvailable?
    ensures var n := TotalCount(s.store.queues);
            && Count(s.toStore, Request) == 0 && Count(s.toCloud, Available) == 1
            && Count(s.toStore, Close) == 0 && Count(s.toCloud, Empty) == 0
            && s.store.leaf == PipeActive && s.store.session.id == id
            && Bonus(s) == (if n > 0 then 4 * n + 10 else 2) && (s.toCloud[0].more <==> n > 0)
  {
    hide TotalCount, Count;
    RestCounts(s.toCloud, Available);
    assert s.toCloud[0] in s.toCloud;
  }

  lemma OfferTurn<R>(c: Config, s: System<R>, id: UInt32, stock: seq<seq<R>>)
    requires Inv(c, s, id, stock) && s.toCloud != [] && s.toCloud[0].BatchAvailable?
    ensures GoodTurn(c, s, Take(c, s, CloudTurn), id, stock)
  {
    hide TotalCount, OfType, Count, Drainable, Bonus, PhaseOk;
    var msg, s' := s.toCloud[0], Take(c, s, CloudTurn);
    assert msg in s.toCloud;
    var answer: StorageMsg := if msg.more then BatchRequest(id) else BatchClose(id);
    OfferCounted(s, id);
    AnswerCounts(s.toCloud, s.toStore, answer);
    DeliveryConserves(s, stock);
    assert s' == System(s.store.(pipe := []), s.toStore + [answer], s.toCloud[1..] + [answer], s.got + s.store.pipe);
    hide Take;
    if msg.more {
      NowRequesting(s', id);
    } else {
      NowFinishing(s', id);
    }
    ConcernsAfter(s.toStore, [answer], id);
    ConcernsAfter(s.toCloud, [answer], id);
  }

  lemma AnswerCounts(toCloud: seq<StorageMsg>, toStore: seq<StorageMsg>, answer: StorageMsg)
    requires toCloud != [] && toCloud[0].BatchAvailable? && (answer.BatchRequest? || answer.BatchClose?)
    ensures Count(toStore + [answer], Request) == Count(toStore, Request) + if answer.BatchRequest? then 1 else 0
    ensures Count(toStore + [answer], Close) == Count(toStore, Close) + if answer.BatchClose? then 1 else 0
    ensures Count(toCloud[1..] + [answer], Available) == Count(toCloud, Available) - 1
    ensures Count(toCloud[1..] + [answer], Empty) == Count(toCloud, Empty)
  {
    CountsAfter(toCloud, toStore, [answer], Request);
    CountsAfter(toCloud, toStore, [answer], Close);
    CountsAfter(toCloud, toStore, [answer], Available);
    CountsAfter(toCloud, toStore, [answer], Empty);
    CountOne(answer, Request);
    CountOne(answer, Close);
    CountOne(answer, Available);
    CountOne(answer, Empty);
    hide Count;
  }

  lemma DeliveryConserves<R>(s: System<R>, stock: seq<seq<R>>)
    requires Conserved(s, stock)
    ensures Conserved(s.(got := s.got + s.store.pipe, store := s.store.(pipe := [])), stock)
  {
    assert forall t :: OfType<R>([], t) == [];
    forall t | 0 <= t < |stock|
      ensures OfType(s.got + s.store.pipe, t) + [] + s.store.queues[t] == stock[t]
    {
      OfTypeConcat(s.got, s.store.pipe, t);
    }
    hide OfType;
  }

  lemma CloseCounts(toCloud: seq<StorageMsg>, toStore: seq<StorageMsg>, close: StorageMsg)
    requires toCloud != [] && toCloud[0].BatchEmpty? && close.BatchClose?
    ensures Count(toStore + [close], Request) == Count(toStore, Request)
    ensures Count(toStore + [close], Close) == Count(toStore, Close) + 1
    ensures Count(toCloud[1..] + [close], Available) == Count(toCloud, Available)
    ensures Count(toCloud[1..] + [close], Empty) == Count(toCloud, Empty) - 1
  {
    CountsAfter(toCloud, toStore, [close], Request);
    CountsAfter(toCloud, toStore, [close], Close);
    CountsAfter(toCloud, toStore, [close], Available);
    CountsAfter(toCloud, toStore, [close], Empty);
    CountOne(close, Request);
    CountOne(close, Close);
    CountOne(close, Available);
    CountOne(close, Empty);
    hide Count;
  }

  lemma CloseTurn<R>(c: Config, s: System<R>, id: UInt32, stock: seq<seq<R>>)
    requires Inv(c, s, id, stock) && s.toCloud != [] && s.toCloud[0].BatchEmpty?
    ensures GoodTurn(c, s, Take(c, s, CloudTurn), id, stock)
  {
    hide TotalCount, Drainable, OfType;
    var close: StorageMsg := BatchClose(id);
    assert s.toCloud[0] in s.toCloud;
    RestCounts(s.toCloud, Empty);
    CloseCounts(s.toCloud, s.toStore, close);
    hide Count;
    NowFinishing(Take(c, s, CloudTurn), id);
    ConcernsAfter(s.toStore, [close], id);
    ConcernsAfter(s.toCloud, [close], id);
  }

  /** The cloud module takes an echo of its own messages. */
  lemma EchoTurn<R>(c: Config, s: System<R>, id: UInt32, stock: seq<seq<R>>)
    requires Inv(c, s, id, stock) && s.toCloud != [] && !s.toCloud[0].BatchAvailable? && !s.toCloud[0].BatchEmpty?
    ensures GoodTurn(c, s, Take(c, s, CloudTurn), id, stock)
  {
    hide TotalCount, Drainable, OfType;
    assert s.toCloud[0] in s.toCloud;
    RestCounts(s.toCloud, Available);
    RestCounts(s.toCloud, Empty);
    hide Count;
    assert s.toCloud[1..] + [] == s.toCloud[1..] && s.toStore + [] == s.toStore;
    assert forall m :: m in s.toCloud[1..] ==> m in s.toCloud;
  }

  lemma EveryTurn<R>(c: Config, s: System<R>, turn: Turn, id: UInt32, stock: seq<seq<R>>)
    requires Inv(c, s, id, stock) && Framable(c) && Enabled(s, turn)
    ensures GoodTurn(c, s, Take(c, s, turn), id, stock)
  {
    hide Inv, GoodTurn, Take;
    if turn == CloudTurn {
      if s.toCloud[0].BatchAvailable? {
        OfferTurn(c, s, id, stock);
      } else if s.toCloud[0].BatchEmpty? {
        CloseTurn(c, s, id, stock);
      } else {
        EchoTurn(c, s, id, stock);
      }
    } else if s.toStore[0] != BatchRequest(id) {
      OtherStoreTurn(c, s, id, stock);
    } else if TotalCount(s.store.queues) > 0 {
      RequestTurn(c, s, id, stock);
    } else {
      EmptyTurn(c, s, id, stock);
    }
  }

  // ---- Whole exchanges ----

  lemma OpeningOk<R>(c: Config, qs: seq<seq<R>>, id: UInt32)
    requires 0 < c.cap && id != 0 && |qs| == |c.types|
    ensures Inv(c, Opening(qs, id), id, qs)
    ensures Measure(Opening(qs, id)) == 4 * TotalCount(qs) + 10
  {
    var msg: StorageMsg := BatchRequest(id);
    CountOne(msg, Request);
    CountOne(msg, Close);
    CountOne(msg, Available);
    CountOne(msg, Empty);
    assert forall t :: OfType<R>([], t) == [];
    assert forall t :: 0 <= t < |qs| ==> [] + [] + qs[t] == qs[t];
    hide Count, OfType, TotalCount;
  }

  lemma {:induction false} RunKeepsInv<R>(c: Config, s: System<R>, turns: seq<Turn>, id: UInt32, stock: seq<seq<R>>)
    requires Inv(c, s, id, stock) && Framable(c) && Runs(c, s, turns)
    ensures Inv(c, Outcome(c, s, turns), id, stock)
    ensures Drainable(c, stock) ==> |turns| + Measure(Outcome(c, s, turns)) <= Measure(s)
    decreases turns
  {
    if turns != [] {
      EveryTurn(c, s, turns[0], id, stock);
      RunKeepsInv(c, Take(c, s, turns[0]), turns[1..], id, stock);
      hide Take, PhaseOk, Measure, Conserved, Concerns;
    }
  }

  /** The backend has become empty, the session is closed, and the cloud has the records of every type,
      all of them, oldest first. */
  ghost predicate Drained<R>(s: System<R>, stock: seq<seq<R>>) {
    && s.store.leaf == BufferIdle && s.store.pipe == []
    && |s.store.queues| == |stock|
    && forall t :: 0 <= t < |stock| ==> s.store.queues[t] == [] && OfType(s.got, t) == stock[t]
  }

  /** When nobody has a message left, everything has been delivered. */
  lemma QuietMeansDrained<R>(c: Config, s: System<R>, id: UInt32, stock: seq<seq<R>>)
    requires Inv(c, s, id, stock) && Quiet(s)
    ensures Drained(s, stock)
  {
    TotalZero(s.store.queues);
    assert forall t :: OfType<R>([], t) == [];
    forall t | 0 <= t < |stock|
      ensures s.store.queues[t] == [] && OfType(s.got, t) == stock[t]
    {
      assert OfType(s.got, t) + [] + [] == OfType(s.got, t);
    }
  }

  /** End-to-end drain: whatever turns the two threads take, after at most 4n + 10 of them, for n records,
      both are done; and whenever both are done, everything has been delivered. */
  lemma DrainCompletes<R>(c: Config, qs: seq<seq<R>>, id: UInt32, turns: seq<Turn>)
    requires 0 < c.cap && id != 0 && |qs| == |c.types| && Framable(c) && Drainable(c, qs)
    requires Runs(c, Opening(qs, id), turns)
    ensures |turns| <= 4 * TotalCount(qs) + 10
    ensures var s := Outcome(c, Opening(qs, id), turns);
            && (Quiet(s) ==> Drained(s, qs))
            && (|turns| == 4 * TotalCount(qs) + 10 ==> Quiet(s))
  {
    OpeningOk(c, qs, id);
    RunKeepsInv(c, Opening(qs, id), turns, id, qs);
    var s := Outcome(c, Opening(qs, id), turns);
    if Quiet(s) {
      QuietMeansDrained(c, s, id, qs);
    }
    hide Inv, Opening, TotalCount, Drained;
  }

  /** With a record too large for the batch buffer the exchange never falls quiet: the offers stay empty
      and more is always left. */
  lemma OversizeNeverQuiet<R>(c: Config, s: System<R>, id: UInt32, stock: seq<seq<R>>, t: nat)
    requires Inv(c, s, id, stock) && t < |stock| && s.store.queues[t] != []
    ensures !Quiet(s)
  {
    TotalZero(s.store.queues);
  }

  /** A type whose frame does not fit keeps its records. */
  lemma OversizeStays<R>(c: Config, s: System<R>, turn: Turn, t: nat)
    requires 0 < c.cap && t < |s.store.queues| == |c.types| && Enabled(s, turn) && Framable(c)
    requires turn == StoreTurn ==> KindOf(s.toStore[0]) != Other
    requires FrameSize(c, t) > c.budget
    ensures Take(c, s, turn).store.queues[t] == s.store.queues[t]
  {
    if turn == StoreTurn {
      var msg := s.toStore[0];
      if msg.BatchRequest? {
        OversizeNotStarted(c, s.store, msg.id, t);
        OversizeNotStarted(c, s.store.(leaf := PipeActive, session := s.store.session.(id := msg.id)), msg.id, t);
      }
      hide Start, FrameSize, Framable, AllData, Published, Append;
    }
  }

  lemma OversizeNotStarted<R>(c: Config, v: View<R>, id: UInt32, t: nat)
    requires t < |v.queues| == |c.types| && FrameSize(c, t) > c.budget && Framable(c)
    ensures Start(c, v, id).view.queues[t] == v.queues[t]
  {
    hide Pack, FrameSize, Framable, TotalCount;
    OversizeNotPacked(c, v.queues, t);
  }

  lemma OversizeNotPacked<R>(c: Config, qs: seq<seq<R>>, t: nat)
    requires t < |qs| == |c.types| && FrameSize(c, t) > c.budget && Framable(c)
    ensures Pack(c, qs).left[t] == qs[t]
  {
    var shares := Shares(c, qs, 0, c.budget);
    WholeShares(c, qs);
    NoShare(c, qs, shares, 0, c.budget, t);
  }

  lemma {:induction false} NoShare<R>(c: Config, qs: seq<seq<R>>, shares: seq<nat>, t: nat, room: nat, u: nat)
    requires SharesFrom(c, qs, shares, t, room) && t <= u < |qs|
    requires forall x :: 0 <= x < |qs| ==> !Unframable(c, qs, x)
    requires FrameSize(c, u) > room
    ensures shares[u] == 0
    decreases u - t
  {
    hide Unframable, FrameSize;
    SharesNext(c, qs, shares, t, room);
    if t < u {
      NoShare(c, qs, shares, t + 1, room - shares[t] * FrameSize(c, t), u);
    } else {
      Slots.MultipleSize(shares[u], FrameSize(c, u));
    }
  }

  /** The exchange, with a type waiting whose frame does not fit. */
  ghost predicate Oversize<R>(c: Config, s: System<R>, id: UInt32, stock: seq<seq<R>>, t: nat) {
    Inv(c, s, id, stock) && Framable(c) && t < |stock| && s.store.queues[t] != [] && FrameSize(c, t) > c.budget
  }

  /** Every turn leaves it going, and the type where it was. */
  lemma OversizeTurn<R>(c: Config, s: System<R>, turn: Turn, id: UInt32, stock: seq<seq<R>>, t: nat)
    requires Oversize(c, s, id, stock, t) && Enabled(s, turn)
    ensures var s' := Take(c, s, turn);
            Oversize(c, s', id, stock, t) && s'.store.queues[t] == s.store.queues[t]
  {
    hide FrameSize, Take;
    EveryTurn(c, s, turn, id, stock);
    assert s.toStore != [] ==> s.toStore[0] in s.toStore;
    hide PhaseOk, Framable;
    OversizeStays(c, s, turn, t);
  }

  /** No schedule ever brings the exchange to an end, and the type stays where it is. */
  lemma {:induction false} OversizeNeverEnds<R>(c: Config, s: System<R>, id: UInt32, stock: seq<seq<R>>, t: nat,
                                                turns: seq<Turn>)
    requires Oversize(c, s, id, stock, t) && Runs(c, s, turns)
    ensures var w := Outcome(c, s, turns);
            !Quiet(w) && Oversize(c, w, id, stock, t) && w.store.queues[t] == s.store.queues[t]
    decreases turns
  {
    OversizeNeverQuiet(c, s, id, stock, t);
    if turns != [] {
      hide Inv, Take, FrameSize, Framable;
      OversizeTurn(c, s, turns[0], id, stock, t);
      OversizeNeverEnds(c, Take(c, s, turns[0]), id, stock, t, turns[1..]);
    }
  }

  /** So there is a schedule of every length: the two keep each other busy for ever. */
  lemma {:induction false} OversizeRunsOn<R>(c: Config, s: System<R>, id: UInt32, stock: seq<seq<R>>, t: nat, n: nat)
    returns (turns: seq<Turn>)
    requires Oversize(c, s, id, stock, t)
    ensures |turns| == n && Runs(c, s, turns)
    decreases n
  {
    if n == 0 {
      turns := [];
    } else {
      OversizeNeverQuiet(c, s, id, stock, t);
      hide Take, FrameSize, Framable, Conserved, PhaseOk, Concerns;
      var turn := if s.toStore != [] then StoreTurn else CloudTurn;
      OversizeTurn(c, s, turn, id, stock, t);
      var rest := OversizeRunsOn(c, Take(c, s, turn), id, stock, t, n - 1);
      turns := [turn] + rest;
      assert turns[1..] == rest;
    }
  }

  /** The exchange is bounded exactly when every waiting record fits the batch buffer. */
  lemma DrainBoundedIff<R>(c: Config, qs: seq<seq<R>>, id: UInt32)
    requires 0 < c.cap && id != 0 && |qs| == |c.types| && Framable(c)
    ensures (forall turns :: Runs(c, Opening(qs, id), turns) ==> |turns| <= 4 * TotalCount(qs) + 10)
       <==> Drainable(c, qs)
  {
    var s, bound := Opening(qs, id), 4 * TotalCount(qs) + 10;
    OpeningOk(c, qs, id);
    if Drainable(c, qs) {
      forall turns | Runs(c, s, turns)
        ensures |turns| <= bound
      {
        DrainCompletes(c, qs, id, turns);
      }
    } else {
      var t :| 0 <= t < |qs| && qs[t] != [] && FrameSize(c, t) > c.budget;
      hide Inv, TotalCount;
      var turns := OversizeRunsOn(c, s, id, qs, t, bound + 1);
      assert Runs(c, s, turns) && |turns| > bound;
    }
  }
}
