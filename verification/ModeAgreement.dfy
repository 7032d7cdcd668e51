/** A shadow that asks for buffer mode gets it, in the application and in the storage module. */
module ModeAgreement {
  import opened Common
  import opened StorageSpec
  import opened AppStorage
  import Drain
  import Main = MainSpec
  import MainDevice
  import MainRuns
  import MainSettings
  import MainTimers
  import MainTransitions

  /** The mode that an input asks of the storage module. */
  function Asked<R>(input: Input<R>): Option<Main.Mode> {
    match input
    case Channel(PassthroughRequest) => Some(Main.Mode.Passthrough)
    case Channel(BufferRequest) => Some(Main.Mode.Buffer)
    case _ => None
  }

  /** The last mode asked for in the queue, or else `mode`. */
  function LastAsked<R>(inputs: seq<Input<R>>, mode: Main.Mode): Main.Mode {
    if inputs == [] then mode
    else
      var asked := Asked(inputs[|inputs| - 1]);
      if asked.Some? then asked.value else LastAsked(inputs[..|inputs| - 1], mode)
  }

  lemma {:induction false} AskedConcat<R>(a: seq<Input<R>>, b: seq<Input<R>>, mode: Main.Mode)
    ensures LastAsked(a + b, mode) == LastAsked(b, LastAsked(a, mode))
  {
    if b == [] {
      assert a + b == a;
    } else {
      AskedConcat(a, b[..|b| - 1], mode);
      assert (a + b)[..|a + b| - 1] == a + b[..|b| - 1];
    }
  }

  lemma {:induction false} NoneAsked<R>(inputs: seq<Input<R>>, mode: Main.Mode)
    requires forall i :: i in inputs ==> Asked(i) == None
    ensures LastAsked(inputs, mode) == mode
  {
    if inputs != [] {
      assert inputs[|inputs| - 1] in inputs;
      NoneAsked(inputs[..|inputs| - 1], mode);
    }
  }

  /** What is asked for against the mode there is, is asked for in any case. */
  lemma {:induction false} AskedAnyway<R>(inputs: seq<Input<R>>, mode: Main.Mode, other: Main.Mode)
    requires LastAsked(inputs, mode) != mode
    ensures LastAsked(inputs, other) == LastAsked(inputs, mode)
  {
    if inputs != [] {
      if Asked(inputs[|inputs| - 1]) == None {
        AskedAnyway(inputs[..|inputs| - 1], mode, other);
      }
    }
  }

  // ---- What the modules say ----

  predicate Requests(msg: StorageMsg) {
    msg.PassthroughRequest? || msg.BufferRequest?
  }

  lemma {:induction false} PublishedRequestsNothing<R>(outs: seq<Output<R>>)
    requires forall out :: out in outs ==> out.Publish? ==> !Requests(out.msg)
    ensures forall m :: m in Drain.Published(outs) ==> !Requests(m)
  {
    if outs != [] {
      assert outs[|outs| - 1] in outs;
      PublishedRequestsNothing(outs[..|outs| - 1]);
    }
  }

  lemma StepRequestsNothing<R>(c: Config, v: View<R>, input: Input<R>)
    requires 0 < c.cap && |v.queues| == |c.types| && InputOk(c, input)
    ensures forall out :: out in Step(c, v, input).1 ==> out.Publish? ==> !Requests(out.msg)
  {
    hide Pack, TotalCount, AllData;
    AllAreData(v.queues);
  }

  /** The storage module itself asks for no mode. */
  lemma StoreAsksNothing<R>(c: Config, v: View<R>, input: Input<R>, mode: Main.Mode)
    requires 0 < c.cap && |v.queues| == |c.types| && InputOk(c, input)
    ensures LastAsked(ToStore<R>(Drain.Published(Step(c, v, input).1)), mode) == mode
  {
    hide Step, Drain.Published, LastAsked;
    var msgs := Drain.Published(Step(c, v, input).1);
    StepRequestsNothing(c, v, input);
    PublishedRequestsNothing(Step(c, v, input).1);
    assert forall i :: 0 <= i < |msgs| ==> !Requests(msgs[i]);
    NoneAsked(ToStore<R>(msgs), mode);
  }

  /** Its mode changes only when asked to, and always when asked for buffer mode. */
  lemma StoreObeys<R>(c: Config, v: View<R>, input: Input<R>)
    requires 0 < c.cap && |v.queues| == |c.types| && InputOk(c, input)
    ensures var (w, outs) := Step(c, v, input);
            && (Asked(input) == None ==> StoreMode(w) == StoreMode(v))
            && (input == Channel(BufferRequest) ==>
                  StoreMode(w) == Main.Mode.Buffer && Drain.Published(outs) == [ModeBuffer])
  {
    hide Pack, TotalCount, AllData, Drain.Published;
    PublishedOf<R>(ModeBuffer, ModeBuffer);
  }

  lemma {:induction false} RequestAmong<R>(msgs: seq<StorageMsg>, mode: Main.Mode)
    requires |msgs| <= 1
    ensures LastAsked(ToStore<R>(msgs), mode)
         == if msgs == [BufferRequest] then Main.Mode.Buffer
            else if msgs == [PassthroughRequest] then Main.Mode.Passthrough else mode
    ensures msgs == [BufferRequest] ==> ToStore<R>(msgs)[0] == Channel(BufferRequest)
  {
  }

  /** The application asks for the modes that its publications name. */
  lemma {:induction false} SaidAsks<R>(outs: seq<Main.Out>, mode: Main.Mode)
    ensures var asked := MainSettings.ModeRequests(outs);
            && LastAsked(ToStore<R>(Said(outs)), mode)
               == (if asked == [] then mode
                   else if asked[|asked| - 1] then Main.Mode.Buffer else Main.Mode.Passthrough)
            && (true in asked ==> Channel(BufferRequest) in ToStore<R>(Said(outs)))
  {
    if outs != [] {
      hide LastAsked;
      var before, last := outs[..|outs| - 1], Said(outs)[|Said(outs[..|outs| - 1])|..];
      SaidAsks<R>(before, mode);
      assert Said(outs) == Said(before) + last && |last| <= 1;
      assert ToStore<R>(Said(outs)) == ToStore<R>(Said(before)) + ToStore<R>(last);
      AskedConcat(ToStore<R>(Said(before)), ToStore<R>(last), mode);
      RequestAmong<R>(last, LastAsked(ToStore<R>(Said(before)), mode));
      hide ToStore;
    } else {
      assert ToStore<R>([]) == [];
    }
  }

  // ---- Runs ----

  /** Acting on a shadow that asks for passthrough mode, or sets only an interval. */
  predicate AsksPassthrough(v: Main.View, msg: Main.Msg) {
    MainSettings.Wishes(MainSettings.ActedOn(MainRuns.Summarize(v), msg)) == [false]
  }

  /** Nobody asks for passthrough mode, and no update is going on after the event. */
  ghost predicate Calm<R>(c: Config, s: System<R>, e: Event<R>)
    requires Sane(c, s) && Possible(c, s, e)
  {
    && Main.ModeOf(Happens(c, s, e).app.leaf) != Main.Update
    && match e
       case AppTakes(_, _) => !AsksPassthrough(s.app, s.toApp[0])
       case Published(said) => !said.PassthroughRequest?
       case _ => true
  }

  ghost predicate AlwaysCalm<R>(c: Config, s: System<R>, es: seq<Event<R>>)
    requires Sane(c, s) && Occurs(c, s, es)
    decreases es
  {
    es != [] ==> Calm(c, s, es[0]) && AlwaysCalm(c, Happens(c, s, es[0]), es[1..])
  }

  predicate Confirming(queue: seq<Main.Msg>) {
    exists m :: m in queue && Named(m).Some?
  }

  /** Buffer mode is what was last asked for, and the application will hear of it. */
  ghost predicate Going<R>(s: System<R>) {
    && Informed(s) && MainDevice.Ok(s.app) && Main.ModeOf(s.app.leaf) != Main.Update
    && LastAsked(s.toStore, StoreMode(s.store)) == Main.Mode.Buffer
    && (s.missed == None || Channel(BufferRequest) in s.toStore || Confirming(s.toApp))
  }

  lemma ActedOnWishes(s: MainRuns.Summary, msg: Main.Msg)
    ensures var ps := MainSettings.ActedOn(s, msg);
            |ps| <= 1 && |MainSettings.Wishes(ps)| <= 1
            && (ps != [] ==> MainSettings.Wishes(ps)
                             == if MainDevice.Effective(ps[0]) then [MainSettings.ValidlyBuffer(ps[0])] else [])
  {
    var ps := MainSettings.ActedOn(s, msg);
    if ps != [] {
      assert ps[..0] == [];
    }
  }

  /** What the application's turn asks of the storage module. */
  lemma TurnAsks<R>(v: Main.View, env: Main.Env, mode: Main.Mode)
    requires MainDevice.Ok(v)
    ensures var w, shadows := Main.Step(v, env), MainSettings.ActedOn(MainRuns.Summarize(v), env.msg);
            var wishes := MainSettings.Wishes(shadows);
            var said := ToStore<R>(Said(MainTimers.NewOuts(v, w)));
            && MainDevice.Ok(w)
            && LastAsked(said, mode) == (if wishes == [] then mode
                                         else if wishes[0] then Main.Mode.Buffer else Main.Mode.Passthrough)
            && (wishes == [true] ==> Channel(BufferRequest) in said)
  {
    hide MainDevice.Ok, Main.Step, MainSettings.ActedOn, MainDevice.Publishes, MainDevice.Next, Said, LastAsked,
        ToStore, MainTimers.NewOuts;
    var d, w := MainDevice.Watch(v), Main.Step(v, env);
    MainDevice.StepShows(v, env);
    MainTimers.NewOutsAre(v, w, MainDevice.Publishes(d, env));
    MainSettings.StepWishes(d, env);
    ActedOnWishes(d.summary, env.msg);
    SaidAsks<R>(MainDevice.Publishes(d, env), mode);
    hide MainSettings.Wishes, MainRuns.Summarize, MainSettings.ModeRequests;
  }

  lemma AppKeepsGoing<R>(c: Config, s: System<R>, now: nat, ms: UInt32)
    requires Sane(c, s) && Possible(c, s, AppTakes(now, ms)) && Going(s) && Calm(c, s, AppTakes(now, ms))
    ensures Going(Happens(c, s, AppTakes(now, ms)))
  {
    hide MainDevice.Ok, Main.Step, Said, LastAsked, ToStore, StoreMode, MainTimers.NewOuts, Informed,
        MainRuns.Summarize, MainSettings.ActedOn, MainSettings.Wishes;
    var env, e: Event<R> := Main.Env(s.toApp[0], now, ms), AppTakes(now, ms);
    var said := Said(MainTimers.NewOuts(s.app, Main.Step(s.app, env)));
    ActedOnWishes(MainRuns.Summarize(s.app), env.msg);
    TurnAsks<R>(s.app, env, Main.Mode.Buffer);
    AskedConcat(s.toStore, ToStore<R>(said), StoreMode(s.store));
    AppTakesInforms(c, s, now, ms);
    assert forall m :: m in s.toApp ==> m == s.toApp[0] || m in s.toApp[1..];
  }

  lemma StoreKeepsGoing<R>(c: Config, s: System<R>)
    requires Sane(c, s) && Possible(c, s, StoreTakes) && Going(s)
    ensures Going(Happens(c, s, StoreTakes))
  {
    hide MainDevice.Ok, LastAsked, ToStore, StoreMode, Informed, Step, Drain.Published;
    var input := s.toStore[0];
    assert input in s.toStore;
    var (w, outs) := Step(c, s.store, input);
    var said := Drain.Published(outs);
    StoreObeys(c, s.store, input);
    StoreAsksNothing(c, s.store, input, Main.Mode.Buffer);
    AskedConcat(s.toStore[1..], ToStore<R>(said), StoreMode(w));
    AskedNext(s.toStore, StoreMode(s.store), StoreMode(w));
    StoreTakesInforms(c, s);
    assert forall i :: i in s.toStore ==> i == input || i in s.toStore[1..];
    if input == Channel(BufferRequest) {
      assert ToApp(said)[0] == Main.StorageBuffer;
      assert Main.StorageBuffer in s.toApp + ToApp(said) && Named(Main.StorageBuffer).Some?;
    }
  }

  /** Taking a request leaves buffer mode the last asked for, whatever becomes of a request for passthrough. */
  lemma AskedNext<R>(inputs: seq<Input<R>>, mode: Main.Mode, next: Main.Mode)
    requires inputs != [] && LastAsked(inputs, mode) == Main.Mode.Buffer
    requires Asked(inputs[0]) == None ==> next == mode
    requires inputs[0] == Channel(BufferRequest) ==> next == Main.Mode.Buffer
    ensures LastAsked(inputs[1..], next) == Main.Mode.Buffer
  {
    AskedConcat([inputs[0]], inputs[1..], mode);
    assert [inputs[0]] + inputs[1..] == inputs && [inputs[0]][..0] == [];
    if Asked(inputs[0]) == Some(Main.Mode.Passthrough) {
      AskedAnyway(inputs[1..], Main.Mode.Passthrough, next);
    }
  }

  /** Messages that ask for nothing but perhaps for buffer mode. */
  lemma QueuedKeepsGoing<R>(s: System<R>, w: System<R>, toApp: seq<Main.Msg>, inputs: seq<Input<R>>)
    requires Going(s) && Informed(w) && (w.app, w.store, w.missed) == (s.app, s.store, s.missed)
    requires w.toApp == s.toApp + toApp && w.toStore == s.toStore + inputs
    requires inputs == [] || (|inputs| == 1 && inputs[0] != Channel(PassthroughRequest))
    ensures Going(w)
  {
    hide MainDevice.Ok, StoreMode, Informed;
    AskedConcat(s.toStore, inputs, StoreMode(s.store));
    assert inputs != [] ==> inputs[..0] == [];
  }

  lemma KeepsGoing<R>(c: Config, s: System<R>, e: Event<R>)
    requires Sane(c, s) && Possible(c, s, e) && Going(s) && Calm(c, s, e)
    ensures Going(Happens(c, s, e))
  {
    hide Informed, Main.Step, Step, LastAsked, MainDevice.Ok;
    var w := Happens(c, s, e);
    HappensInforms(c, s, e);
    match e
    case AppTakes(now, ms) => AppKeepsGoing(c, s, now, ms);
    case StoreTakes => StoreKeepsGoing(c, s);
    case BatchRead =>
    case Published(said) => QueuedKeepsGoing(s, w, ToApp([said]), ToStore([said]));
    case Sampled(ty, rec, relevant) => QueuedKeepsGoing(s, w, [], [Sample(ty, rec, relevant)]);
    case TimesOut => QueuedKeepsGoing(s, w, [], [SessionTimeout]);
    case Arrives(msg) => QueuedKeepsGoing(s, w, [msg], []);
  }

  lemma {:induction false} AlwaysGoing<R>(c: Config, s: System<R>, es: seq<Event<R>>)
    requires Sane(c, s) && Occurs(c, s, es) && Going(s) && AlwaysCalm(c, s, es)
    ensures Going(Finally(c, s, es))
    decreases es
  {
    hide Going, Happens, Calm;
    if es != [] {
      KeepsGoing(c, s, es[0]);
      AlwaysGoing(c, Happens(c, s, es[0]), es[1..]);
    }
  }

  /** The application takes a shadow that validly says buffer mode. */
  lemma StartsGoing<R>(c: Config, s: System<R>, now: nat, ms: UInt32)
    requires Sane(c, s) && Possible(c, s, AppTakes(now, ms)) && Informed(s) && MainDevice.Ok(s.app)
    requires var shadow := MainDevice.Accepted(MainRuns.Summarize(s.app), s.toApp[0]);
             shadow.Some? && MainSettings.ValidlyBuffer(shadow.value.params)
    ensures Going(Happens(c, s, AppTakes(now, ms)))
  {
    hide MainDevice.Ok, Main.Step, Said, LastAsked, ToStore, StoreMode, MainTimers.NewOuts, Informed;
    var env := Main.Env(s.toApp[0], now, ms);
    var said := Said(MainTimers.NewOuts(s.app, Main.Step(s.app, env)));
    ActedOnWishes(MainRuns.Summarize(s.app), env.msg);
    TurnAsks<R>(s.app, env, StoreMode(s.store));
    TurnAsks<R>(s.app, env, LastAsked(s.toStore, StoreMode(s.store)));
    AskedConcat(s.toStore, ToStore<R>(said), StoreMode(s.store));
    AppTakesInforms(c, s, now, ms);
    OutsideUpdates(s.app, env);
  }

  /** A shadow that is acted on leaves the application outside updates. */
  lemma OutsideUpdates(v: Main.View, env: Main.Env)
    requires MainDevice.Ok(v) && MainDevice.Accepted(MainRuns.Summarize(v), env.msg).Some?
    ensures Main.ModeOf(Main.Step(v, env).leaf) != Main.Update
  {
    hide Main.Step, MainRuns.HistoryMatches;
    MainRuns.StepSummarizes(v, env);
    MainRuns.StepKeepsInv(v, env);
  }

  /** The whole system at any time after start-up. */
  lemma {:induction false} AlwaysOk<R>(c: Config, s: System<R>, es: seq<Event<R>>)
    requires Sane(c, s) && Occurs(c, s, es) && MainDevice.Ok(s.app)
    ensures MainDevice.Ok(Finally(c, s, es).app)
    decreases es
  {
    if es != [] {
      StaysOk(c, s, es[0]);
      hide Happens, MainDevice.Ok;
      AlwaysOk(c, Happens(c, s, es[0]), es[1..]);
    }
  }

  lemma StaysOk<R>(c: Config, s: System<R>, e: Event<R>)
    requires Sane(c, s) && Possible(c, s, e) && MainDevice.Ok(s.app)
    ensures MainDevice.Ok(Happens(c, s, e).app)
  {
    hide MainDevice.Ok, Main.Step, Step;
    if e.AppTakes? {
      MainDevice.StepShows(s.app, Main.Env(s.toApp[0], e.now, e.ms));
    }
  }

  lemma Ends<R>(s: System<R>)
    requires Going(s) && (forall i :: i in s.toStore ==> Asked(i) == None) && !Confirming(s.toApp)
    ensures Main.ModeOf(s.app.leaf) == StoreMode(s.store) == Main.Mode.Buffer
  {
    hide MainDevice.Ok, LastAsked, StoreMode, MainRuns.Inv;
    NoneAsked(s.toStore, StoreMode(s.store));
    NoneNamed(s.toApp, Told(s));
  }

  /** At any time after start-up, in any interleaving: once the application, connected and outside updates, has
      acted on a shadow that validly says buffer mode, and until somebody asks for passthrough mode or an update
      begins, both modules are in buffer mode when no request and no confirmation is left in their queues. */
  lemma BufferModeFollows<R>(c: Config, mode: Main.State, sample: UInt32, update: UInt32, now: nat, ms: UInt32,
                             qs: seq<seq<R>>, before: seq<Event<R>>, at: nat, atMs: UInt32, es: seq<Event<R>>)
    requires MainTransitions.ModeState(mode) && 0 < c.cap && |qs| == |c.types|
    requires Occurs(c, Initially(mode, sample, update, now, ms, qs), before)
    requires var s := Finally(c, Initially(mode, sample, update, now, ms, qs), before);
             && Possible(c, s, AppTakes(at, atMs))
             && var shadow := MainDevice.Accepted(MainRuns.Summarize(s.app), s.toApp[0]);
                && shadow.Some? && MainSettings.ValidlyBuffer(shadow.value.params)
                && Occurs(c, Happens(c, s, AppTakes(at, atMs)), es)
                && AlwaysCalm(c, Happens(c, s, AppTakes(at, atMs)), es)
    ensures var s := Finally(c, Initially(mode, sample, update, now, ms, qs), before);
            var w := Finally(c, Happens(c, s, AppTakes(at, atMs)), es);
            (forall i :: i in w.toStore ==> Asked(i) == None) && !Confirming(w.toApp) ==>
              Main.ModeOf(w.app.leaf) == StoreMode(w.store) == Main.Mode.Buffer
  {
    var s0 := Initially(mode, sample, update, now, ms, qs);
    MainRuns.StartsInv(mode, sample, update, now, ms);
    MainDevice.Boots(mode, sample, update, now, ms);
    hide Main.Initial, MainRuns.Inv, MainDevice.Ok, Happens, Going, AlwaysCalm, Confirming, Asked, StoreMode;
    AlwaysInformed(c, s0, before);
    AlwaysOk(c, s0, before);
    var s := Finally(c, s0, before);
    StartsGoing(c, s, at, atMs);
    AlwaysGoing(c, Happens(c, s, AppTakes(at, atMs)), es);
    var w := Finally(c, Happens(c, s, AppTakes(at, atMs)), es);
    if (forall i :: i in w.toStore ==> Asked(i) == None) && !Confirming(w.toApp) {
      Ends(w);
    }
  }
}
