/** The application and the storage module over their shared STORAGE_CHAN: whether they agree on the storage
    mode, and what a reboot into new firmware finds in the backend. */
module AppStorage {
  import opened Common
  import opened StorageSpec
  import Drain
  import Main = MainSpec
  import MainRuns
  import MainTimers
  import MainTransitions
  import Packing
  import Requests
  import UpdateSafety

  /** Both modules and their queues. `missed` is the mode that the last confirmation named which the
      application took during an update, unless it has followed one since. */
  datatype System<R> = System(
    app: Main.View,
    toApp: seq<Main.Msg>,
    store: View<R>,
    toStore: seq<Input<R>>,
    missed: Option<Main.Mode>)

  /** A thread takes its next message; the consumer reads an item; anyone else publishes on STORAGE_CHAN
      anything but a confirmation, which only the storage module gives; a sample or a session timeout reaches
      the storage module; another channel has a message for the application. */
  datatype Event<R> =
    | AppTakes(now: nat, ms: UInt32)
    | StoreTakes
    | BatchRead
    | Published(said: StorageMsg)
    | Sampled(ty: nat, rec: R, relevant: bool)
    | TimesOut
    | Arrives(msg: Main.Msg)

  predicate Confirms(msg: StorageMsg) {
    msg.ModePassthrough? || msg.ModeBuffer?
  }

  ghost predicate Sane<R>(c: Config, s: System<R>) {
    0 < c.cap && |s.store.queues| == |c.types| && forall i :: i in s.toStore ==> InputOk(c, i)
  }

  predicate Possible<R>(c: Config, s: System<R>, e: Event<R>) {
    match e
    case AppTakes(_, _) => s.toApp != [] && s.app.leaf != Main.FotaRebooting
    case StoreTakes => s.toStore != []
    case Published(said) => !Confirms(said)
    case Sampled(ty, _, _) => ty < |c.types|
    case Arrives(msg) => !Main.IsStorage(msg)
    case _ => true
  }

  /** How the application's subscriber receives a message of STORAGE_CHAN. */
  function AsHeard(msg: StorageMsg): Main.Msg {
    match msg
    case ModePassthrough => Main.StoragePassthrough
    case ModeBuffer => Main.StorageBuffer
    case _ => Main.StorageOther
  }

  /** What the application says on STORAGE_CHAN. */
  function Said(outs: seq<Main.Out>): seq<StorageMsg> {
    if outs == [] then []
    else
      Said(outs[..|outs| - 1])
      + match outs[|outs| - 1]
        case BatchRequest(id) => [BatchRequest(id)]
        case ModeRequest(buffer) => [if buffer then BufferRequest else PassthroughRequest]
        case ClearStorage => [Clear]
        case _ => []
  }

  function ToApp(msgs: seq<StorageMsg>): (heard: seq<Main.Msg>)
    ensures |heard| == |msgs|
  {
    seq(|msgs|, i requires 0 <= i < |msgs| => AsHeard(msgs[i]))
  }

  function ToStore<R>(msgs: seq<StorageMsg>): (inputs: seq<Input<R>>)
    ensures |inputs| == |msgs|
  {
    seq(|msgs|, i requires 0 <= i < |msgs| => Channel(msgs[i]))
  }

  /** A publication reaches both queues, the publisher's own included. */
  function Broadcast<R>(s: System<R>, msgs: seq<StorageMsg>): System<R> {
    s.(toApp := s.toApp + ToApp(msgs), toStore := s.toStore + ToStore(msgs))
  }

  /** The mode that a message confirms. */
  function Named(msg: Main.Msg): Option<Main.Mode> {
    match msg
    case StoragePassthrough => Some(Main.Mode.Passthrough)
    case StorageBuffer => Some(Main.Mode.Buffer)
    case _ => None
  }

  ghost function Happens<R>(c: Config, s: System<R>, e: Event<R>): (s': System<R>)
    requires Sane(c, s) && Possible(c, s, e)
    ensures Sane(c, s')
  {
    match e
    case AppTakes(now, ms) =>
      var app' := Main.Step(s.app, Main.Env(s.toApp[0], now, ms));
      var missed := if Named(s.toApp[0]) == None then s.missed
                    else if Main.ModeOf(s.app.leaf) == Main.Update then Named(s.toApp[0]) else None;
      Broadcast(s.(app := app', toApp := s.toApp[1..], missed := missed), Said(MainTimers.NewOuts(s.app, app')))
    case StoreTakes =>
      assert s.toStore[0] in s.toStore;
      var (v, outs) := Step(c, s.store, s.toStore[0]);
      Broadcast(s.(store := v, toStore := s.toStore[1..]), Drain.Published(outs))
    case BatchRead => s.(store := Read(s.store).0)
    case Published(said) => Broadcast(s, [said])
    case Sampled(ty, rec, relevant) => s.(toStore := s.toStore + [Sample(ty, rec, relevant)])
    case TimesOut => s.(toStore := s.toStore + [SessionTimeout])
    case Arrives(msg) => s.(toApp := s.toApp + [msg])
  }

  ghost predicate Occurs<R>(c: Config, s: System<R>, es: seq<Event<R>>)
    requires Sane(c, s)
    decreases es
  {
    es != [] ==> Possible(c, s, es[0]) && Occurs(c, Happens(c, s, es[0]), es[1..])
  }

  ghost function Finally<R>(c: Config, s: System<R>, es: seq<Event<R>>): (s': System<R>)
    requires Sane(c, s) && Occurs(c, s, es)
    ensures Sane(c, s')
    decreases es
  {
    if es == [] then s else Finally(c, Happens(c, s, es[0]), es[1..])
  }

  // ---- Agreeing on the mode ----

  function StoreMode<R>(v: View<R>): Main.Mode {
    if v.leaf == Leaf.Passthrough then Main.Mode.Passthrough else Main.Mode.Buffer
  }

  /** The mode the application is in, or to which it will return from its update. */
  function AppMode<R>(s: System<R>): Main.Mode {
    MainRuns.Summarize(s.app).mode
  }

  /** The mode that the last confirmation in the queue names, or else `mode`. */
  function LastNamed(msgs: seq<Main.Msg>, mode: Main.Mode): Main.Mode {
    if msgs == [] then mode
    else
      var named := Named(msgs[|msgs| - 1]);
      if named.Some? then named.value else LastNamed(msgs[..|msgs| - 1], mode)
  }

  /** What the application would be in, had it followed every confirmation it took. */
  function Told<R>(s: System<R>): Main.Mode {
    if s.missed.Some? then s.missed.value else AppMode(s)
  }

  /** The last confirmation on its way, or else the last one taken, names the storage module's mode. */
  ghost predicate Informed<R>(s: System<R>) {
    MainRuns.Inv(s.app) && LastNamed(s.toApp, Told(s)) == StoreMode(s.store)
  }

  lemma {:induction false} NamedConcat(a: seq<Main.Msg>, b: seq<Main.Msg>, mode: Main.Mode)
    ensures LastNamed(a + b, mode) == LastNamed(b, LastNamed(a, mode))
  {
    if b == [] {
      assert a + b == a;
    } else {
      NamedConcat(a, b[..|b| - 1], mode);
      assert (a + b)[..|a + b| - 1] == a + b[..|b| - 1];
    }
  }

  lemma NamedNext(msgs: seq<Main.Msg>, mode: Main.Mode)
    requires msgs != []
    ensures LastNamed(msgs, mode)
         == LastNamed(msgs[1..], if Named(msgs[0]).Some? then Named(msgs[0]).value else mode)
  {
    NamedConcat([msgs[0]], msgs[1..], mode);
    assert [msgs[0]] + msgs[1..] == msgs;
    assert [msgs[0]][..0] == [];
  }

  lemma {:induction false} NoneNamed(msgs: seq<Main.Msg>, mode: Main.Mode)
    requires forall m :: m in msgs ==> Named(m) == None
    ensures LastNamed(msgs, mode) == mode
  {
    if msgs != [] {
      assert msgs[|msgs| - 1] in msgs;
      NoneNamed(msgs[..|msgs| - 1], mode);
    }
  }

  /** The application itself confirms nothing. */
  lemma {:induction false} SaidConfirmsNothing(outs: seq<Main.Out>)
    ensures forall m :: m in Said(outs) ==> !Confirms(m)
  {
    if outs != [] {
      SaidConfirmsNothing(outs[..|outs| - 1]);
    }
  }

  lemma UnconfirmingKeeps<R>(msgs: seq<Main.Msg>, said: seq<StorageMsg>, mode: Main.Mode)
    requires forall m :: m in said ==> !Confirms(m)
    ensures LastNamed(msgs + ToApp(said), mode) == LastNamed(msgs, mode)
  {
    NamedConcat(msgs, ToApp(said), mode);
    assert forall i :: 0 <= i < |said| ==> !Confirms(said[i]);
    NoneNamed(ToApp(said), LastNamed(msgs, mode));
  }

  lemma {:induction false} AllAreData<R>(qs: seq<seq<R>>)
    ensures forall out :: out in AllData(qs) ==> out.Data?
  {
    if qs != [] {
      AllAreData(qs[..|qs| - 1]);
    }
  }

  lemma {:induction false} NonePublished<R>(outs: seq<Output<R>>)
    requires forall out :: out in outs ==> out.Data?
    ensures Drain.Published(outs) == []
  {
    if outs != [] {
      assert outs[|outs| - 1] in outs;
      NonePublished(outs[..|outs| - 1]);
    }
  }

  lemma PublishedOf<R>(a: StorageMsg, b: StorageMsg)
    ensures Drain.Published<R>([Publish(a)]) == [a]
    ensures Drain.Published<R>([Publish(a), Publish(b)]) == [a, b]
  {
    var outs: seq<Output<R>> := [Publish(a), Publish(b)];
    assert outs[..1] == [Publish(a)] && outs[..1][..0] == [];
  }

  /** What the storage module says on its channel, when it takes no request for a batch. */
  lemma StoreNames<R>(c: Config, v: View<R>, input: Input<R>)
    requires 0 < c.cap && |v.queues| == |c.types| && InputOk(c, input)
    ensures var (w, outs) := Step(c, v, input);
            LastNamed(ToApp(Drain.Published(outs)), StoreMode(v)) == StoreMode(w)
  {
    hide Start, AllData, Drain.Published, LastNamed;
    match input
    case Sample(ty, rec, relevant) =>
      NoneSaid<R>([Data(ty, rec)], StoreMode(v));
      NoneSaid<R>([], StoreMode(v));
    case SessionTimeout =>
      OneSaid<R>(BatchClose(v.session.id), StoreMode(v));
      NoneSaid<R>([], StoreMode(v));
    case Channel(msg) =>
      ChannelNames(c, v, msg);
  }

  /** The rows of the table that say something of the mode, or publish data, or nothing. */
  lemma ChannelRows<R>(c: Config, v: View<R>, msg: StorageMsg)
    requires 0 < c.cap && |v.queues| == |c.types| && !msg.BatchRequest?
    ensures var (w, outs) := Step(c, v, Channel(msg));
            match msg
            case PassthroughRequest =>
              && StoreMode(w) == (if v.leaf == PipeActive then StoreMode(v) else Main.Mode.Passthrough)
              && outs == [Publish(if v.leaf == PipeActive then ModeRejected else ModePassthrough)]
            case BufferRequest => StoreMode(w) == Main.Mode.Buffer && outs == [Publish(ModeBuffer)]
            case Flush => StoreMode(w) == StoreMode(v) && outs == AllData(v.queues)
            case _ => StoreMode(w) == StoreMode(v) && outs == []
  {
    hide AllData;
  }

  /** The storage module changes its mode exactly when it says so. */
  lemma ChannelNames<R>(c: Config, v: View<R>, msg: StorageMsg)
    requires 0 < c.cap && |v.queues| == |c.types|
    ensures var (w, outs) := Step(c, v, Channel(msg));
            LastNamed(ToApp(Drain.Published(outs)), StoreMode(v)) == StoreMode(w)
  {
    hide Step, AllData, Drain.Published, LastNamed, StoreMode, ToApp;
    var mode := StoreMode(v);
    if msg.BatchRequest? {
      BatchNames(c, v, msg.id);
    } else {
      ChannelRows(c, v, msg);
      NoneSaid<R>([], mode);
      AllAreData(v.queues);
      NoneSaid(AllData(v.queues), mode);
      OneSaid<R>(ModePassthrough, mode);
      OneSaid<R>(ModeBuffer, mode);
      OneSaid<R>(ModeRejected, mode);
    }
  }

  lemma BatchNames<R>(c: Config, v: View<R>, id: UInt32)
    requires 0 < c.cap && |v.queues| == |c.types|
    ensures var (w, outs) := Step(c, v, Channel(BatchRequest(id)));
            LastNamed(ToApp(Drain.Published(outs)), StoreMode(v)) == StoreMode(w)
  {
    hide AllData, Pack, TotalCount, Drain.Published, LastNamed;
    var outs := Step(c, v, Channel(BatchRequest(id))).1;
    assert |outs| == 2 ==> outs == [outs[0], outs[1]] && outs[0] == outs[1];
    assert |outs| == 1 ==> outs == [outs[0]];
    OneSaid<R>(outs[0].msg, StoreMode(v));
  }

  lemma NoneSaid<R>(outs: seq<Output<R>>, mode: Main.Mode)
    requires forall out :: out in outs ==> out.Data?
    ensures LastNamed(ToApp(Drain.Published(outs)), mode) == mode
  {
    NonePublished(outs);
  }

  lemma OneSaid<R>(a: StorageMsg, mode: Main.Mode)
    ensures var named := Named(AsHeard(a));
            && LastNamed(ToApp(Drain.Published<R>([Publish(a)])), mode) == (if named.Some? then named.value else mode)
            && LastNamed(ToApp(Drain.Published<R>([Publish(a), Publish(a)])), mode)
               == (if named.Some? then named.value else mode)
  {
    PublishedOf<R>(a, a);
    assert ToApp([a]) == [AsHeard(a)] && [AsHeard(a)][..0] == [];
    assert ToApp([a, a])[..1] == [AsHeard(a)];
  }

  lemma StoreTakesInforms<R>(c: Config, s: System<R>)
    requires Sane(c, s) && Possible(c, s, StoreTakes) && Informed(s)
    ensures Informed(Happens(c, s, StoreTakes))
  {
    hide MainRuns.Inv, Step, LastNamed, StoreMode;
    assert s.toStore[0] in s.toStore;
    var (v, outs) := Step(c, s.store, s.toStore[0]);
    StoreNames(c, s.store, s.toStore[0]);
    NamedConcat(s.toApp, ToApp(Drain.Published(outs)), Told(s));
  }

  lemma AppTakesInforms<R>(c: Config, s: System<R>, now: nat, ms: UInt32)
    requires Sane(c, s) && Possible(c, s, AppTakes(now, ms)) && Informed(s)
    ensures Informed(Happens(c, s, AppTakes(now, ms)))
  {
    hide MainRuns.Inv, Main.Step, LastNamed, StoreMode, MainTimers.NewOuts, MainRuns.Summarize;
    var env, s' := Main.Env(s.toApp[0], now, ms), Happens(c, s, AppTakes(now, ms));
    var said := Said(MainTimers.NewOuts(s.app, s'.app));
    MainRuns.StepKeepsInv(s.app, env);
    SaidConfirmsNothing(MainTimers.NewOuts(s.app, s'.app));
    UnconfirmingKeeps<R>(s.toApp[1..], said, Told(s'));
    NamedNext(s.toApp, Told(s));
    MainRuns.StepSummarizes(s.app, env);
    FollowsMode(s.app, env.msg);
  }

  /** Outside updates the application follows a confirmation, during one it keeps the mode. */
  lemma FollowsMode(v: Main.View, msg: Main.Msg)
    requires MainRuns.Inv(v) && v.leaf != Main.FotaRebooting
    ensures var mode := MainRuns.Follow(MainRuns.Summarize(v), msg).mode;
            mode == if Named(msg).Some? && Main.ModeOf(v.leaf) != Main.Update then Named(msg).value
                    else MainRuns.Summarize(v).mode
  {
  }

  lemma HappensInforms<R>(c: Config, s: System<R>, e: Event<R>)
    requires Sane(c, s) && Possible(c, s, e) && Informed(s)
    ensures Informed(Happens(c, s, e))
  {
    match e
    case AppTakes(now, ms) => AppTakesInforms(c, s, now, ms);
    case StoreTakes => StoreTakesInforms(c, s);
    case Published(said) => UnconfirmingKeeps<R>(s.toApp, [said], Told(s));
    case Arrives(msg) => assert (s.toApp + [msg])[..|s.toApp|] == s.toApp;
    case _ =>
  }

  lemma {:induction false} AlwaysInformed<R>(c: Config, s: System<R>, es: seq<Event<R>>)
    requires Sane(c, s) && Occurs(c, s, es) && Informed(s)
    ensures Informed(Finally(c, s, es))
    decreases es
  {
    hide Informed, Happens;
    if es != [] {
      HappensInforms(c, s, es[0]);
      AlwaysInformed(c, Happens(c, s, es[0]), es[1..]);
    }
  }

  /** Both modules at start-up, in the configured mode; the backend may have recovered records. */
  function Initially<R>(mode: Main.State, sample: UInt32, update: UInt32, now: nat, ms: UInt32, qs: seq<seq<R>>)
    : System<R>
  {
    var leaf := if mode == Main.BufferMode then BufferIdle else Leaf.Passthrough;
    System(Main.Initial(mode, sample, update, now, ms), [], StartUp(leaf, qs), [], None)
  }

  /** Over every run from start-up, whatever is published and however the threads interleave: once the
      application has taken every confirmation sent, it is in the storage module's mode exactly if it missed
      none during its last update, or the last it missed names the mode it is in anyway. */
  lemma ModesAgreeIff<R>(c: Config, mode: Main.State, sample: UInt32, update: UInt32, now: nat, ms: UInt32,
                         qs: seq<seq<R>>, es: seq<Event<R>>)
    requires MainTransitions.ModeState(mode) && 0 < c.cap && |qs| == |c.types|
    requires Occurs(c, Initially(mode, sample, update, now, ms, qs), es)
    ensures var s := Finally(c, Initially(mode, sample, update, now, ms, qs), es);
            (forall m :: m in s.toApp ==> Named(m) == None) ==>
              (AppMode(s) == StoreMode(s.store) <==> s.missed == None || s.missed == Some(AppMode(s)))
  {
    var s0 := Initially(mode, sample, update, now, ms, qs);
    MainRuns.StartsInv(mode, sample, update, now, ms);
    hide Main.Initial, MainRuns.Inv, Occurs;
    AlwaysInformed(c, s0, es);
    var s := Finally(c, s0, es);
    if forall m :: m in s.toApp ==> Named(m) == None {
      NoneNamed(s.toApp, Told(s));
    }
  }

  // ---- Before a reboot ----

  /** Going down for a reboot puts a clear, and nothing else, last in the storage module's queue. */
  lemma RebootSendsClear<R>(c: Config, s: System<R>, now: nat, ms: UInt32)
    requires Sane(c, s) && Possible(c, s, AppTakes(now, ms)) && MainRuns.Inv(s.app)
    requires Happens(c, s, AppTakes(now, ms)).app.leaf == Main.FotaRebooting
    ensures var s' := Happens(c, s, AppTakes(now, ms));
            s'.toStore == s.toStore + [Channel(Clear)] && s'.store == s.store
  {
    hide MainRuns.Inv, Main.Step, MainTimers.NewOuts;
    UpdateSafety.QuietInUpdate(s.app, Main.Env(s.toApp[0], now, ms));
    SaidOf(Main.ClearStorage, Main.Reboot);
    assert ToStore<R>([Clear]) == [Channel(Clear)];
  }

  lemma SaidOf(a: Main.Out, b: Main.Out)
    ensures Said([a]) == (match a
                          case BatchRequest(id) => [BatchRequest(id)]
                          case ModeRequest(buffer) => [if buffer then BufferRequest else PassthroughRequest]
                          case ClearStorage => [Clear]
                          case _ => [])
    ensures Said([a, b]) == Said([a]) + Said([b])
  {
    assert [a, b][..1] == [a] && [a][..0] == [] && [b][..0] == [];
  }

  function StoreTurns<R>(es: seq<Event<R>>): nat {
    if es == [] then 0 else (if es[0] == StoreTakes then 1 else 0) + StoreTurns(es[1..])
  }

  /** The queue is first in, first out. */
  lemma {:induction false} QueueMoves<R>(c: Config, s: System<R>, es: seq<Event<R>>)
    requires Sane(c, s) && Occurs(c, s, es) && StoreTurns(es) <= |s.toStore|
    ensures s.toStore[StoreTurns(es)..] <= Finally(c, s, es).toStore
    decreases es
  {
    if es != [] {
      var s' := Happens(c, s, es[0]);
      QueueStep(c, s, es[0]);
      hide Happens;
      QueueMoves(c, s', es[1..]);
    }
  }

  lemma QueueStep<R>(c: Config, s: System<R>, e: Event<R>)
    requires Sane(c, s) && Possible(c, s, e)
    ensures (if e == StoreTakes then s.toStore[1..] else s.toStore) <= Happens(c, s, e).toStore
  {
    hide Step, Main.Step, MainTimers.NewOuts, Said;
  }

  /** Whatever else happens while the device waits to reboot: when the storage module takes the
      application's clear, the backend is empty afterwards exactly if no batch session is active then, or it
      was empty already. */
  lemma RebootEmptiesIff<R>(c: Config, s: System<R>, now: nat, ms: UInt32, es: seq<Event<R>>)
    requires Sane(c, s) && Possible(c, s, AppTakes(now, ms)) && MainRuns.Inv(s.app)
    requires Happens(c, s, AppTakes(now, ms)).app.leaf == Main.FotaRebooting
    requires Occurs(c, Happens(c, s, AppTakes(now, ms)), es) && StoreTurns(es) == |s.toStore|
    ensures var w := Finally(c, Happens(c, s, AppTakes(now, ms)), es);
            && w.toStore != [] && w.toStore[0] == Channel(Clear)
            && (TotalCount(Happens(c, w, StoreTakes).store.queues) == 0
                <==> w.store.leaf != PipeActive || TotalCount(w.store.queues) == 0)
  {
    hide MainRuns.Inv, Main.Step, TotalCount, Occurs, Sane;
    var s' := Happens(c, s, AppTakes(now, ms));
    RebootSendsClear(c, s, now, ms);
    QueueMoves(c, s', es);
    var w := Finally(c, s', es);
    assert s'.toStore[|s.toStore|..] == [Channel(Clear)];
    assert w.toStore[0] == [Channel(Clear)][0];
    ClearTaken(c, w);
  }

  lemma ClearTaken<R>(c: Config, w: System<R>)
    requires Sane(c, w) && w.toStore != [] && w.toStore[0] == Channel(Clear)
    ensures TotalCount(Happens(c, w, StoreTakes).store.queues) == 0
            <==> w.store.leaf != PipeActive || TotalCount(w.store.queues) == 0
  {
    Packing.TotalZero(Emptied(w.store.queues));
    hide TotalCount;
  }

  // ---- Runs that show it ----

  lemma Begins<R>(c: Config, s: System<R>, e: Event<R>, es: seq<Event<R>>)
    requires Sane(c, s) && Possible(c, s, e) && Occurs(c, Happens(c, s, e), es)
    ensures Occurs(c, s, [e] + es) && Finally(c, s, [e] + es) == Finally(c, Happens(c, s, e), es)
  {
    hide Happens;
    assert ([e] + es)[1..] == es;
  }

  lemma {:induction false} GoesOn<R>(c: Config, s: System<R>, es: seq<Event<R>>, more: seq<Event<R>>)
    requires Sane(c, s) && Occurs(c, s, es) && Occurs(c, Finally(c, s, es), more)
    ensures Occurs(c, s, es + more) && Finally(c, s, es + more) == Finally(c, Finally(c, s, es), more)
    decreases es
  {
    hide Happens;
    if es == [] {
      assert es + more == more;
    } else {
      GoesOn(c, Happens(c, s, es[0]), es[1..], more);
      Begins(c, s, es[0], es[1..] + more);
      assert [es[0]] + (es[1..] + more) == es + more;
    }
  }

  /** A turn of the application that says `said`. */
  lemma AppTurn<R>(c: Config, s: System<R>, now: nat, ms: UInt32, said: seq<StorageMsg>)
    requires Sane(c, s) && Possible(c, s, AppTakes(now, ms)) && MainRuns.Inv(s.app)
    requires var w := Main.Step(s.app, Main.Env(s.toApp[0], now, ms)); Said(MainTimers.NewOuts(s.app, w)) == said
    ensures var s' := Happens(c, s, AppTakes(now, ms));
            && s'.app == Main.Step(s.app, Main.Env(s.toApp[0], now, ms)) && MainRuns.Inv(s'.app)
            && s'.store == s.store && s'.toStore == s.toStore + ToStore(said)
            && s'.toApp == s.toApp[1..] + ToApp(said)
  {
    hide MainRuns.Inv, Main.Step, MainTimers.NewOuts, Said;
    MainRuns.StepKeepsInv(s.app, Main.Env(s.toApp[0], now, ms));
  }

  lemma BatchRequestStep(v: Main.View, env: Main.Env)
    requires Main.ModeOf(v.leaf) == Main.Mode.Buffer && Main.Connected(v.leaf) && env.msg == Main.CloudExpired
    ensures Main.Step(v, env) == Main.RestartSend(Main.Poll(Main.RequestBatch(v, env)), env)
  {
    hide Main.GoBuffer, Main.GoPassthrough, Main.StepShadow, Main.RestartSend, Main.Poll, Main.RequestBatch;
  }

  lemma SendsBatchRequest(v: Main.View, env: Main.Env)
    requires Main.ModeOf(v.leaf) == Main.Mode.Buffer && Main.Connected(v.leaf) && env.msg == Main.CloudExpired
    ensures var w := Main.Step(v, env);
            w.leaf == v.leaf && Said(MainTimers.NewOuts(v, w)) == [BatchRequest(env.ms)]
  {
    hide MainTimers.NewOuts, Main.Step;
    BatchRequestStep(v, env);
    MainTimers.OtherPublishes(v, env);
    var outs := [Main.Out.BatchRequest(env.ms), Main.FotaPoll, Main.GetDelta];
    assert outs[..2] == [Main.Out.BatchRequest(env.ms), Main.FotaPoll];
    SaidOf(Main.Out.BatchRequest(env.ms), Main.FotaPoll);
  }

  /** The three messages that take an update through to the reboot. */
  function UpdateLeaf(leaf: Main.State, msg: Main.Msg): Option<Main.State> {
    if Main.ModeOf(leaf) != Main.Update then
      if msg == Main.FotaEvent(Main.DownloadingUpdate) then Some(Main.FotaDownloading) else None
    else if leaf == Main.FotaDownloading then
      if msg == Main.FotaEvent(Main.SuccessRebootNeeded) then Some(Main.FotaWaitingForDisconnect) else None
    else if leaf == Main.FotaWaitingForDisconnect then
      if msg == Main.NetworkDisconnected then Some(Main.FotaRebooting) else None
    else None
  }

  lemma UpdateLands(v: Main.View, env: Main.Env)
    requires MainRuns.Inv(v) && UpdateLeaf(v.leaf, env.msg).Some?
    ensures Main.Step(v, env).leaf == UpdateLeaf(v.leaf, env.msg).value
  {
    hide MainRuns.HistoryMatches;
  }

  lemma SaysThroughUpdate(v: Main.View, env: Main.Env)
    requires MainRuns.Inv(v) && UpdateLeaf(v.leaf, env.msg).Some?
    ensures var w := Main.Step(v, env);
            && w.leaf == UpdateLeaf(v.leaf, env.msg).value
            && Said(MainTimers.NewOuts(v, w)) == if w.leaf == Main.FotaRebooting then [Clear] else []
  {
    hide MainTimers.NewOuts, MainRuns.Inv, Main.Step;
    UpdateLands(v, env);
    UpdateSafety.QuietInUpdate(v, env);
    SaidOf(Main.DisconnectNetwork, Main.DisconnectNetwork);
    SaidOf(Main.ClearStorage, Main.Reboot);
  }

  lemma ThroughUpdate<R>(c: Config, s: System<R>, now: nat, ms: UInt32)
    requires Sane(c, s) && MainRuns.Inv(s.app) && Main.ModeOf(s.app.leaf) != Main.Update && |s.toApp| >= 3
    requires s.toApp[0] == Main.FotaEvent(Main.DownloadingUpdate)
    requires s.toApp[1] == Main.FotaEvent(Main.SuccessRebootNeeded) && s.toApp[2] == Main.NetworkDisconnected
    ensures var take: Event<R> := AppTakes(now, ms);
            && Occurs(c, s, [take, take, take])
            && var w := Finally(c, s, [take, take, take]);
               w.app.leaf == Main.FotaRebooting && w.store == s.store && w.toStore == s.toStore + [Channel(Clear)]
  {
    hide Main.Step, MainTimers.NewOuts, Said, MainRuns.Inv;
    var take: Event<R> := AppTakes(now, ms);
    SaysThroughUpdate(s.app, Main.Env(s.toApp[0], now, ms));
    AppTurn(c, s, now, ms, []);
    var s1 := Happens(c, s, take);
    SaysThroughUpdate(s1.app, Main.Env(s1.toApp[0], now, ms));
    AppTurn(c, s1, now, ms, []);
    var s2 := Happens(c, s1, take);
    SaysThroughUpdate(s2.app, Main.Env(s2.toApp[0], now, ms));
    AppTurn(c, s2, now, ms, [Clear]);
    var s3 := Happens(c, s2, take);
    assert ToStore<R>([Clear]) == [Channel(Clear)];
    assert s3.toStore == s.toStore + [Channel(Clear)];
    hide Happens;
    Begins(c, s2, take, []);
    Begins(c, s1, take, [take]);
    Begins(c, s, take, [take, take]);
    assert [take] + [] == [take] && [take] + [take] == [take, take] && [take] + [take, take] == [take, take, take];
  }

  /** The storage module takes the request from idle, and its own offer and the clear in the session. */
  lemma TakesRequest<R>(c: Config, s: System<R>, id: UInt32)
    requires Sane(c, s) && s.toStore == [Channel(BatchRequest(id))] && s.store.leaf == BufferIdle && id != 0
    requires TotalCount(s.store.queues) > 0 && !Requests.HasUnframable(c, s.store.queues)
    ensures var s' := Happens(c, s, StoreTakes);
            && s'.app == s.app && s.toApp[..] <= s'.toApp && s'.store.leaf == PipeActive
            && |s'.toStore| == 1 && s'.toStore[0].Channel? && s'.toStore[0].msg.BatchAvailable?
            && (TotalCount(s'.store.queues) > 0 <==> Requests.StoredSize(c, s.store.queues) > c.budget)
  {
    Requests.AnsweredOnceIff(c, s.store, id);
    Requests.RequestOpens(c, s.store, id);
    hide TotalCount, Pack, Requests.StoredSize, Requests.HasUnframable;
    var (v, outs) := Step(c, s.store, s.toStore[0]);
    assert outs == [outs[0]];
    PublishedOf<R>(outs[0].msg, outs[0].msg);
  }

  lemma TakesIdly<R>(c: Config, s: System<R>)
    requires Sane(c, s) && s.toStore != [] && s.store.leaf == PipeActive && s.toStore[0].Channel?
    requires s.toStore[0].msg.BatchAvailable? || s.toStore[0].msg.Clear?
    ensures var s' := Happens(c, s, StoreTakes);
            s'.app == s.app && s'.store == s.store && s'.toStore == s.toStore[1..]
  {
  }

  /** From a request in buffer mode to the reboot for an update, with the cloud module reading nothing: the
      records stored before are still in the backend exactly if the batch could not take them all. */
  lemma RebootKeepsRecordsIff<R>(c: Config, s: System<R>, now: nat, ms: UInt32)
    requires Sane(c, s) && MainRuns.Inv(s.app) && s.toStore == [] && s.store.leaf == BufferIdle && ms != 0
    requires Main.ModeOf(s.app.leaf) == Main.Mode.Buffer && Main.Connected(s.app.leaf)
    requires TotalCount(s.store.queues) > 0 && !Requests.HasUnframable(c, s.store.queues)
    requires s.toApp == [Main.CloudExpired, Main.FotaEvent(Main.DownloadingUpdate),
                         Main.FotaEvent(Main.SuccessRebootNeeded), Main.NetworkDisconnected]
    ensures var take: Event<R> := AppTakes(now, ms);
            var es := [take, StoreTakes, take, take, take, StoreTakes, StoreTakes];
            && Occurs(c, s, es)
            && var w := Finally(c, s, es);
               && w.app.leaf == Main.FotaRebooting && w.toStore == []
               && (TotalCount(w.store.queues) > 0 <==> Requests.StoredSize(c, s.store.queues) > c.budget)
  {
    hide Main.Step, MainTimers.NewOuts, Said, MainRuns.Inv, TotalCount, Requests.StoredSize, Requests.HasUnframable,
        Happens;
    var take: Event<R> := AppTakes(now, ms);
    SendsBatchRequest(s.app, Main.Env(s.toApp[0], now, ms));
    AppTurn(c, s, now, ms, [BatchRequest(ms)]);
    var s1 := Happens(c, s, take);
    assert s1.toStore == [Channel(BatchRequest(ms))];
    TakesRequest(c, s1, ms);
    var s2 := Happens(c, s1, StoreTakes);
    assert s2.toApp[..3] == s.toApp[1..];
    ThroughUpdate(c, s2, now, ms);
    var s5 := Finally(c, s2, [take, take, take]);
    TakesIdly(c, s5);
    var s6 := Happens(c, s5, StoreTakes);
    TakesIdly(c, s6);
    Begins(c, s6, StoreTakes, []);
    Begins(c, s5, StoreTakes, [StoreTakes]);
    GoesOn(c, s2, [take, take, take], [StoreTakes, StoreTakes]);
    Begins(c, s1, StoreTakes, [take, take, take] + [StoreTakes, StoreTakes]);
    Begins(c, s, take, [StoreTakes] + ([take, take, take] + [StoreTakes, StoreTakes]));
    assert [take] + ([StoreTakes] + ([take, take, take] + [StoreTakes, StoreTakes]))
        == [take, StoreTakes, take, take, take, StoreTakes, StoreTakes];
  }

  /** A shadow that asks for passthrough mode and sets nothing else. */
  const WANTS_PASSTHROUGH := Main.ShadowResponse(true, Some(Main.Shadow(Main.Params(0, 0, false, true), false, 0, 0)))

  lemma SendsModeRequest(v: Main.View, env: Main.Env)
    requires Main.ModeOf(v.leaf) == Main.Mode.Buffer && Main.Connected(v.leaf) && env.msg == WANTS_PASSTHROUGH
    ensures var w := Main.Step(v, env);
            w.leaf == v.leaf && Said(MainTimers.NewOuts(v, w)) == [PassthroughRequest]
  {
    var w := Main.Step(v, env);
    var report := Main.Reported(Main.Params(v.sample, v.update, false, true), 0, 0);
    assert w.outs == v.outs + [Main.ModeRequest(false)] + [report] == v.outs + [Main.ModeRequest(false), report];
    MainTimers.NewOutsAre(v, w, [Main.ModeRequest(false), report]);
    SaidOf(Main.ModeRequest(false), report);
    assert [report][..0] == [];
    hide MainTimers.NewOuts, Main.Step;
  }

  lemma IgnoresInUpdate(v: Main.View, env: Main.Env)
    requires v.leaf == Main.FotaDownloading && Main.IsStorage(env.msg)
    ensures Main.Step(v, env) == v && Said(MainTimers.NewOuts(v, v)) == []
  {
  }

  lemma TakesModeRequest<R>(c: Config, s: System<R>)
    requires Sane(c, s) && s.toStore == [Channel(PassthroughRequest)] && s.store.leaf == BufferIdle
    ensures var s' := Happens(c, s, StoreTakes);
            && s' == s.(store := s'.store, toApp := s.toApp + [Main.StoragePassthrough], toStore := s'.toStore)
            && StoreMode(s'.store) == Main.Mode.Passthrough
  {
    PublishedOf<R>(ModePassthrough, ModePassthrough);
  }

  /** A mode request goes out just before an update begins. */
  lemma RequestsThenUpdates<R>(c: Config, s: System<R>, now: nat, ms: UInt32)
    requires Sane(c, s) && MainRuns.Inv(s.app) && s.toStore == []
    requires Main.ModeOf(s.app.leaf) == Main.Mode.Buffer && Main.Connected(s.app.leaf)
    requires s.toApp == [WANTS_PASSTHROUGH, Main.FotaEvent(Main.DownloadingUpdate)]
    ensures var take: Event<R> := AppTakes(now, ms);
            && Occurs(c, s, [take, take])
            && var w := Finally(c, s, [take, take]);
               && MainRuns.Inv(w.app) && w.app.leaf == Main.FotaDownloading && AppMode(w) == Main.Mode.Buffer
               && w.toApp == [Main.StorageOther] && w.toStore == [Channel(PassthroughRequest)] && w.store == s.store
  {
    hide Main.Step, MainTimers.NewOuts, Said, MainRuns.Inv, MainRuns.Summarize;
    var take: Event<R> := AppTakes(now, ms);
    SendsModeRequest(s.app, Main.Env(s.toApp[0], now, ms));
    AppTurn(c, s, now, ms, [PassthroughRequest]);
    KeepsBuffer(s.app, Main.Env(s.toApp[0], now, ms));
    var s1 := Happens(c, s, take);
    assert s1.toApp == [s.toApp[1], Main.StorageOther] && s1.toStore == [Channel(PassthroughRequest)];
    SaysThroughUpdate(s1.app, Main.Env(s1.toApp[0], now, ms));
    AppTurn(c, s1, now, ms, []);
    KeepsBuffer(s1.app, Main.Env(s1.toApp[0], now, ms));
    hide Happens;
    Begins(c, s1, take, []);
    Begins(c, s, take, [take]);
    assert [take] + [] == [take] && [take] + [take] == [take, take];
  }

  /** Its confirmation is missed. */
  lemma MissesConfirmation<R>(c: Config, s: System<R>, now: nat, ms: UInt32)
    requires Sane(c, s) && MainRuns.Inv(s.app) && s.app.leaf == Main.FotaDownloading && s.store.leaf == BufferIdle
    requires s.toApp == [Main.StorageOther] && s.toStore == [Channel(PassthroughRequest)]
    ensures var take: Event<R> := AppTakes(now, ms);
            && Occurs(c, s, [StoreTakes, take, take])
            && var w := Finally(c, s, [StoreTakes, take, take]);
               w.app == s.app && w.toApp == [] && StoreMode(w.store) == Main.Mode.Passthrough
  {
    hide Main.Step, MainTimers.NewOuts, Said, MainRuns.Inv, StoreMode, Step;
    var take: Event<R> := AppTakes(now, ms);
    TakesModeRequest(c, s);
    var s1 := Happens(c, s, StoreTakes);
    IgnoresInUpdate(s1.app, Main.Env(s1.toApp[0], now, ms));
    AppTurn(c, s1, now, ms, []);
    var s2 := Happens(c, s1, take);
    IgnoresInUpdate(s2.app, Main.Env(s2.toApp[0], now, ms));
    AppTurn(c, s2, now, ms, []);
    hide Happens;
    Begins(c, s2, take, []);
    Begins(c, s1, take, [take]);
    Begins(c, s, StoreTakes, [take, take]);
    assert [take] + [] == [take] && [take] + [take] == [take, take];
    assert [StoreTakes] + [take, take] == [StoreTakes, take, take];
  }

  lemma KeepsBuffer(v: Main.View, env: Main.Env)
    requires MainRuns.Inv(v) && v.leaf != Main.FotaRebooting && Named(env.msg) == None
    ensures MainRuns.Summarize(Main.Step(v, env)).mode == MainRuns.Summarize(v).mode
    ensures Main.ModeOf(v.leaf) != Main.Update ==> MainRuns.Summarize(v).mode == Main.ModeOf(v.leaf)
  {
    MainRuns.StepSummarizes(v, env);
    FollowsMode(v, env.msg);
    hide MainRuns.Inv, Main.Step;
  }

  /** So a cancelled update can resume in buffer mode while the storage module is in passthrough mode, with no
      confirmation on its way. */
  lemma ModesCanDiffer<R>(c: Config, s: System<R>, now: nat, ms: UInt32)
    requires Sane(c, s) && MainRuns.Inv(s.app) && s.toStore == [] && s.store.leaf == BufferIdle
    requires Main.ModeOf(s.app.leaf) == Main.Mode.Buffer && Main.Connected(s.app.leaf)
    requires s.toApp == [WANTS_PASSTHROUGH, Main.FotaEvent(Main.DownloadingUpdate)]
    ensures var take: Event<R> := AppTakes(now, ms);
            var es := [take, take, StoreTakes, take, take, Arrives(Main.FotaEvent(Main.DownloadCanceled)), take];
            && Occurs(c, s, es)
            && var w := Finally(c, s, es);
               && Main.ModeOf(w.app.leaf) == Main.Mode.Buffer && StoreMode(w.store) == Main.Mode.Passthrough
               && forall m :: m in w.toApp ==> Named(m) == None
  {
    hide Main.Step, MainTimers.NewOuts, Said, MainRuns.Inv, StoreMode, MainRuns.Summarize;
    var take, stop: Event<R> := AppTakes(now, ms), Arrives(Main.FotaEvent(Main.DownloadCanceled));
    RequestsThenUpdates(c, s, now, ms);
    var s2 := Finally(c, s, [take, take]);
    MissesConfirmation(c, s2, now, ms);
    GoesOn(c, s, [take, take], [StoreTakes, take, take]);
    var es := [take, take] + [StoreTakes, take, take];
    var s5 := Finally(c, s, es);
    var s6 := Happens(c, s5, stop);
    assert s6.toApp == [Main.FotaEvent(Main.DownloadCanceled)];
    var env := Main.Env(s6.toApp[0], now, ms);
    var said := Said(MainTimers.NewOuts(s6.app, Main.Step(s6.app, env)));
    AppTurn(c, s6, now, ms, said);
    SaidConfirmsNothing(MainTimers.NewOuts(s6.app, Main.Step(s6.app, env)));
    assert forall i :: 0 <= i < |said| ==> !Confirms(said[i]);
    ResumesInBuffer(s6.app, env);
    hide Happens;
    Begins(c, s6, take, []);
    Begins(c, s5, stop, [take]);
    GoesOn(c, s, es, [stop, take]);
    assert [stop] + [take] == [stop, take] && [take] + [] == [take];
    assert es + [stop, take] == [take, take, StoreTakes, take, take, stop, take];
  }

  lemma ResumesInBuffer(v: Main.View, env: Main.Env)
    requires MainRuns.Inv(v) && v.leaf == Main.FotaDownloading && env.msg == Main.FotaEvent(Main.DownloadCanceled)
    requires MainRuns.Summarize(v).mode == Main.Mode.Buffer
    ensures Main.ModeOf(Main.Step(v, env).leaf) == Main.Mode.Buffer
  {
    MainRuns.StepSummarizes(v, env);
    hide MainRuns.Inv, Main.Step;
  }

  // ---- The same from start-up ----

  function Arrivals<R>(msgs: seq<Main.Msg>): (es: seq<Event<R>>)
    ensures |es| == |msgs|
  {
    seq(|msgs|, i requires 0 <= i < |msgs| => Arrives(msgs[i]))
  }

  lemma Arrived<R>(c: Config, s: System<R>, msg: Main.Msg)
    requires Sane(c, s) && !Main.IsStorage(msg)
    ensures Happens(c, s, Arrives(msg)) == s.(toApp := s.toApp + [msg])
  {
  }

  lemma {:induction false} AllArrive<R>(c: Config, s: System<R>, msgs: seq<Main.Msg>)
    requires Sane(c, s) && forall m :: m in msgs ==> !Main.IsStorage(m)
    ensures Occurs(c, s, Arrivals<R>(msgs))
    ensures Finally(c, s, Arrivals<R>(msgs)) == s.(toApp := s.toApp + msgs)
    decreases |msgs|
  {
    if msgs == [] {
      assert s.toApp + [] == s.toApp;
    } else {
      var first: Event<R> := Arrives(msgs[0]);
      hide Happens;
      Arrived(c, s, msgs[0]);
      AllArrive(c, Happens(c, s, first), msgs[1..]);
      Begins(c, s, first, Arrivals<R>(msgs[1..]));
      assert Arrivals<R>(msgs) == [first] + Arrivals<R>(msgs[1..]);
      assert s.toApp + [msgs[0]] + msgs[1..] == s.toApp + msgs;
    }
  }

  lemma {:induction false} SaysNothing(outs: seq<Main.Out>)
    requires forall out :: out in outs ==> out.GetDesired? || out.SearchTrigger?
    ensures Said(outs) == []
  {
    if outs != [] {
      assert outs[|outs| - 1] in outs;
      SaysNothing(outs[..|outs| - 1]);
    }
  }

  /** Going online in buffer mode says nothing to the storage module. */
  lemma GoesOnline(v: Main.View, env: Main.Env)
    requires Main.ModeOf(v.leaf) == Main.Mode.Buffer && !Main.Connected(v.leaf) && env.msg == Main.CloudConnected
    ensures var w := Main.Step(v, env);
            && Main.ModeOf(w.leaf) == Main.Mode.Buffer && Main.Connected(w.leaf)
            && Said(MainTimers.NewOuts(v, w)) == []
  {
    var w := Main.Step(v, env);
    assert w == Main.GoBuffer(v, true, false, env);
    hide Main.GoBuffer, MainTimers.NewOuts;
    MainRuns.Lands(v, true, false, env);
    MainTimers.GoBufferPublishes(v, true, false, env);
    SaysNothing(MainTimers.NewOuts(v, w));
  }

  /** The cloud connects first. */
  lemma ConnectsFirst<R>(c: Config, sample: UInt32, update: UInt32, now: nat, ms: UInt32, qs: seq<seq<R>>)
    returns (s: System<R>)
    requires 0 < c.cap && |qs| == |c.types|
    ensures var s0, take: Event<R> := Initially(Main.BufferMode, sample, update, now, ms, qs), AppTakes(now, ms);
            var es := [Arrives(Main.CloudConnected), take];
            Occurs(c, s0, es) && Finally(c, s0, es) == s
    ensures Sane(c, s) && MainRuns.Inv(s.app) && s.toStore == [] && s.toApp == []
    ensures s.store == StartUp(BufferIdle, qs)
    ensures Main.ModeOf(s.app.leaf) == Main.Mode.Buffer && Main.Connected(s.app.leaf)
  {
    hide Main.Initial, Main.Step, MainRuns.Inv, MainTimers.NewOuts, Said, Happens;
    var s0 := Initially(Main.BufferMode, sample, update, now, ms, qs);
    MainRuns.StartsInv(Main.BufferMode, sample, update, now, ms);
    var online, take: Event<R> := Arrives(Main.CloudConnected), AppTakes(now, ms);
    Arrived(c, s0, Main.CloudConnected);
    var s1 := Happens(c, s0, online);
    assert s1.toApp == [Main.CloudConnected];
    GoesOnline(s1.app, Main.Env(s1.toApp[0], now, ms));
    AppTurn(c, s1, now, ms, []);
    s := Happens(c, s1, take);
    Begins(c, s1, take, []);
    Begins(c, s0, online, [take]);
    assert [take] + [] == [take] && [online] + [take] == [online, take];
  }

  /** And then `msgs` arrive. */
  lemma OnlineFromStart<R>(c: Config, sample: UInt32, update: UInt32, now: nat, ms: UInt32, qs: seq<seq<R>>,
                           msgs: seq<Main.Msg>)
    returns (es: seq<Event<R>>, s: System<R>)
    requires 0 < c.cap && |qs| == |c.types| && forall m :: m in msgs ==> !Main.IsStorage(m)
    ensures var s0 := Initially(Main.BufferMode, sample, update, now, ms, qs);
            Occurs(c, s0, es) && Finally(c, s0, es) == s
    ensures Sane(c, s) && MainRuns.Inv(s.app) && s.toStore == [] && s.store == StartUp(BufferIdle, qs)
    ensures Main.ModeOf(s.app.leaf) == Main.Mode.Buffer && Main.Connected(s.app.leaf) && s.toApp == msgs
  {
    hide Main.Initial, MainRuns.Inv, Happens, Occurs, Finally;
    var mid := ConnectsFirst(c, sample, update, now, ms, qs);
    AllArrive(c, mid, msgs);
    es, s := [Arrives(Main.CloudConnected), AppTakes(now, ms)], Finally(c, mid, Arrivals<R>(msgs));
    GoesOn(c, Initially(Main.BufferMode, sample, update, now, ms, qs), es, Arrivals<R>(msgs));
    es := es + Arrivals<R>(msgs);
    assert [] + msgs == msgs;
  }

  /** A run from start-up to a reboot that leaves records behind exactly if the batch could not take all that
      the backend had recovered. */
  lemma RebootKeepsFromStart<R>(c: Config, sample: UInt32, update: UInt32, now: nat, ms: UInt32, qs: seq<seq<R>>)
    returns (es: seq<Event<R>>)
    requires 0 < c.cap && |qs| == |c.types| && ms != 0 && TotalCount(qs) > 0 && !Requests.HasUnframable(c, qs)
    ensures var s0 := Initially(Main.BufferMode, sample, update, now, ms, qs);
            && Occurs(c, s0, es)
            && var w := Finally(c, s0, es);
               && w.app.leaf == Main.FotaRebooting && w.toStore == []
               && (TotalCount(w.store.queues) > 0 <==> Requests.StoredSize(c, qs) > c.budget)
  {
    hide MainRuns.Inv, TotalCount, Requests.StoredSize, Requests.HasUnframable, Happens, Occurs, Finally, Main.Initial;
    var s: System<R>;
    es, s := OnlineFromStart(c, sample, update, now, ms, qs,
                             [Main.CloudExpired, Main.FotaEvent(Main.DownloadingUpdate),
                              Main.FotaEvent(Main.SuccessRebootNeeded), Main.NetworkDisconnected]);
    RebootKeepsRecordsIff(c, s, now, ms);
    var take: Event<R> := AppTakes(now, ms);
    var more := [take, StoreTakes, take, take, take, StoreTakes, StoreTakes];
    GoesOn(c, Initially(Main.BufferMode, sample, update, now, ms, qs), es, more);
    es := es + more;
  }

  /** A run from start-up after which the modes differ. */
  lemma ModesDifferFromStart<R>(c: Config, sample: UInt32, update: UInt32, now: nat, ms: UInt32, qs: seq<seq<R>>)
    returns (es: seq<Event<R>>)
    requires 0 < c.cap && |qs| == |c.types|
    ensures var s0 := Initially(Main.BufferMode, sample, update, now, ms, qs);
            && Occurs(c, s0, es)
            && var w := Finally(c, s0, es);
               && Main.ModeOf(w.app.leaf) == Main.Mode.Buffer && StoreMode(w.store) == Main.Mode.Passthrough
               && forall m :: m in w.toApp ==> Named(m) == None
  {
    hide MainRuns.Inv, Happens, Occurs, Finally, Main.Initial;
    var s: System<R>;
    es, s := OnlineFromStart(c, sample, update, now, ms, qs,
                             [WANTS_PASSTHROUGH, Main.FotaEvent(Main.DownloadingUpdate)]);
    ModesCanDiffer(c, s, now, ms);
    var take: Event<R> := AppTakes(now, ms);
    var more := [take, take, StoreTakes, take, take, Arrives(Main.FotaEvent(Main.DownloadCanceled)), take];
    GoesOn(c, Initially(Main.BufferMode, sample, update, now, ms, qs), es, more);
    es := es + more;
  }
}
