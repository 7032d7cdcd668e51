/** Time in the application machine: its timers are never lost, sampling keeps its distance, and prompt
    sampling does not drift. */
module MainTimers {
  import opened Common
  import opened MainSpec
  import opened MainTransitions
  import opened MainRuns

  // ---- Timers and their messages ----

  /** The machine and what its subscriber has yet to take. */
  datatype System = System(v: View, queue: seq<Msg>)

  /** A message arrives, a timer runs out, or the thread takes its next message. */
  datatype Event = Arrives(msg: Msg) | SampleRunsOut | SendRunsOut | Takes(now: nat, ms: UInt32)

  predicate Possible(s: System, e: Event) {
    match e
    case Arrives(_) => true
    case SampleRunsOut => s.v.sampleTimer.Some?
    case SendRunsOut => s.v.sendTimer.Some?
    case Takes(_, _) => s.queue != [] && s.v.leaf != FotaRebooting
  }

  /** Publishing on TIMER_CHAN reaches the module's own queue. */
  function Echo(outs: seq<Out>): seq<Msg> {
    if outs == [] then []
    else Echo(outs[..|outs| - 1]) + if outs[|outs| - 1].TimersChanged? then [ConfigChanged] else []
  }

  function Happens(s: System, e: Event): System
    requires Possible(s, e)
  {
    match e
    case Arrives(msg) => s.(queue := s.queue + [msg])
    case SampleRunsOut => System(s.v.(sampleTimer := None), s.queue + [SampleExpired])
    case SendRunsOut => System(s.v.(sendTimer := None), s.queue + [CloudExpired])
    case Takes(now, ms) =>
      var v' := Step(s.v, Env(s.queue[0], now, ms));
      System(v', s.queue[1..] + Echo(NewOuts(s.v, v')))
  }

  /** What was published since `v`. */
  function NewOuts(v: View, v': View): seq<Out> {
    if |v.outs| <= |v'.outs| then v'.outs[|v.outs|..] else []
  }

  /** While waiting, the sample timer runs or its message is queued; in buffer mode the same holds of the
      send timer. Neither runs elsewhere. */
  ghost predicate Live(s: System) {
    && Inv(s.v)
    && (Waiting(s.v.leaf) ==> s.v.sampleTimer.Some? || SampleExpired in s.queue)
    && (ModeOf(s.v.leaf) == Buffer ==> s.v.sendTimer.Some? || CloudExpired in s.queue)
  }

  /** What a step does to the timers. */
  ghost predicate KeepsTimers(v: View, msg: Msg, w: View) {
    && (Waiting(w.leaf) ==> w.sampleTimer.Some? || (w.leaf == v.leaf && msg != SampleExpired))
    && (ModeOf(w.leaf) == Buffer ==> w.sendTimer.Some? || msg != CloudExpired)
    && (ModeOf(w.leaf) == Buffer && v.sendTimer.Some? ==> w.sendTimer.Some?)
    && (Waiting(w.leaf) && v.sampleTimer.Some? ==> w.sampleTimer.Some?)
  }

  lemma BufferTimers(v: View, env: Env)
    requires Inv(v) && ModeOf(v.leaf) == Buffer
    ensures KeepsTimers(v, env.msg, StepBuffer(v, env))
  {
    hide GoBuffer, GoPassthrough, StepShadow, Sample;
    if MovesBuffer(env.msg) {
      Lands(v, !Connected(v.leaf), false, env);
      Lands(v, Connected(v.leaf), true, env);
    } else {
      StayingKeepsTimers(v, env);
      hide StepBuffer;
    }
  }

  lemma StayingKeepsTimers(v: View, env: Env)
    requires Inv(v) && ModeOf(v.leaf) == Buffer && !MovesBuffer(env.msg)
    ensures KeepsTimers(v, env.msg, StepBuffer(v, env))
  {
    hide GoBuffer, GoPassthrough, StepShadow, Sample;
    Samples(v, Connected(v.leaf), env);
    ShadowKeeps(v, env);
  }

  lemma PassthroughTimers(v: View, env: Env)
    requires Inv(v) && ModeOf(v.leaf) == Passthrough
    ensures var w := StepPassthrough(v, env);
            && (Waiting(w.leaf) ==> w.sampleTimer.Some? || (w.leaf == v.leaf && env.msg != SampleExpired))
            && (Waiting(w.leaf) && v.sampleTimer.Some? ==> w.sampleTimer.Some?)
            && (ModeOf(w.leaf) == Buffer ==> w.sendTimer.Some?)
  {
    hide GoBuffer, GoPassthrough, StepShadow;
    if MovesPassthrough(env.msg) {
      Lands(v, true, false, env);
      Lands(v, false, false, env);
      Lands(v, Connected(v.leaf), true, env);
    } else {
      ShadowKeeps(v, env);
    }
  }

  lemma UpdateTimers(v: View, env: Env)
    requires Inv(v) && ModeOf(v.leaf) == Update
    ensures var w := StepUpdate(v, env);
            && (Waiting(w.leaf) ==> w.sampleTimer.Some?)
            && (ModeOf(w.leaf) == Buffer ==> w.sendTimer.Some?)
  {
    hide Resume;
    Resumes(v, env);
  }

  lemma TakesKeepsLive(s: System, now: nat, ms: UInt32)
    requires Live(s) && Possible(s, Takes(now, ms))
    ensures Live(Happens(s, Takes(now, ms)))
  {
    var env := Env(s.queue[0], now, ms);
    StepKeepsInv(s.v, env);
    assert forall m :: m in s.queue ==> m == s.queue[0] || m in s.queue[1..];
    hide Inv, StepBuffer, StepPassthrough, StepUpdate, Echo, NewOuts;
    match ModeOf(s.v.leaf) {
      case Buffer => BufferTimers(s.v, env);
      case Passthrough => PassthroughTimers(s.v, env);
      case Update => UpdateTimers(s.v, env);
    }
  }

  lemma HappensKeepsLive(s: System, e: Event)
    requires Live(s) && Possible(s, e)
    ensures Live(Happens(s, e))
  {
    match e
    case Arrives(_) =>
    case SampleRunsOut =>
    case SendRunsOut =>
    case Takes(now, ms) => TakesKeepsLive(s, now, ms);
  }

  ghost predicate Occurs(s: System, es: seq<Event>)
    decreases es
  {
    es != [] ==> Possible(s, es[0]) && Occurs(Happens(s, es[0]), es[1..])
  }

  ghost function Finally(s: System, es: seq<Event>): System
    requires Occurs(s, es)
    decreases es
  {
    if es == [] then s else Finally(Happens(s, es[0]), es[1..])
  }

  /** Periodic work is never lost, whatever arrives and however the timers race with the thread. */
  lemma {:induction false} AlwaysLive(s: System, es: seq<Event>)
    requires Live(s) && Occurs(s, es)
    ensures Live(Finally(s, es))
    decreases es
  {
    if es != [] {
      HappensKeepsLive(s, es[0]);
      AlwaysLive(Happens(s, es[0]), es[1..]);
    }
  }

  /** From start-up on, with nothing queued. */
  lemma LiveFromStart(mode: State, sample: UInt32, update: UInt32, now: nat, ms: UInt32, es: seq<Event>)
    requires ModeState(mode) && Occurs(System(Initial(mode, sample, update, now, ms), []), es)
    ensures Live(Finally(System(Initial(mode, sample, update, now, ms), []), es))
  {
    StartsInv(mode, sample, update, now, ms);
    hide Initial, Inv;
    AlwaysLive(System(Initial(mode, sample, update, now, ms), []), es);
  }

  // ---- Distances ----

  /** Uptime does not run backwards, and has reached its first second. */
  ghost predicate Clocked(v: View, envs: seq<Env>) {
    && (envs != [] ==> v.start <= envs[0].now)
    && (forall i, j :: 0 <= i < j < |envs| ==> envs[i].now <= envs[j].now)
    && forall i :: 0 <= i < |envs| ==> 1 <= envs[i].now
  }

  predicate Triggers(v: View, v': View) {
    SearchTrigger in NewOuts(v, v')
  }

  /** When the current stay in buffer mode last asked for a location search. */
  function LastTrigger(v: View, envs: seq<Env>): Option<nat> {
    if envs == [] then None
    else
      var before := After(v, envs[..|envs| - 1]);
      var v', env := After(v, envs), envs[|envs| - 1];
      if ModeOf(v'.leaf) != Buffer then None
      else if Triggers(before, v') then Some(env.now)
      else if ModeOf(before.leaf) != Buffer then None
      else LastTrigger(v, envs[..|envs| - 1])
  }

  lemma NewOutsAre(v: View, w: View, outs: seq<Out>)
    requires w.outs == v.outs + outs
    ensures NewOuts(v, w) == outs
  {
  }

  function TriggerUnless(soon: bool): seq<Out> {
    if soon then [] else [SearchTrigger]
  }

  lemma SamplePublishes(v: View, connected: bool, env: Env)
    ensures var w := Sample(v, connected, env);
            && NewOuts(v, w) == TriggerUnless(TooSoon(v, env))
            && w.start == (if TooSoon(v, env) then v.start else env.now) && w.sample == v.sample
  {
    NewOutsAre(v, Sample(v, connected, env), TriggerUnless(TooSoon(v, env)));
  }

  lemma GoBufferPublishes(v: View, connected: bool, entering: bool, env: Env)
    ensures var w, soon := GoBuffer(v, connected, entering, env), !entering && TooSoon(v, env);
            && NewOuts(v, w) == (if connected && !v.polled then [GetDesired] else []) + TriggerUnless(soon)
            && w.start == (if soon then v.start else env.now) && w.sample == v.sample
  {
    var soon := !entering && TooSoon(v, env);
    NewOutsAre(v, GoBuffer(v, connected, entering, env),
               (if connected && !v.polled then [GetDesired] else []) + TriggerUnless(soon));
  }

  /** Shadows never trigger a search; a changed interval counts from now. */
  lemma ShadowPublishes(v: View, env: Env)
    ensures var w := StepShadow(v, env);
            SearchTrigger !in NewOuts(v, w) && (w.start == v.start || w.start == env.now)
  {
    match env.msg
    case ShadowResponse(delta, Some(shadow)) => HandleShadowPublishes(v, delta, shadow, ModeOf(v.leaf) == Buffer, env);
    case EmptyDesired =>
      NewOutsAre(v, StepShadow(v, env), [Reported(Params(v.sample, v.update, ModeOf(v.leaf) == Buffer, true), 0, 0)]);
    case _ =>
  }

  lemma HandleShadowPublishes(v: View, delta: bool, shadow: Shadow, inBufferMode: bool, env: Env)
    ensures var w := HandleShadow(v, delta, shadow, inBufferMode, env);
            SearchTrigger !in NewOuts(v, w) && (w.start == v.start || w.start == env.now)
  {
    var v1, w := ApplyParams(v, shadow.params, env), HandleShadow(v, delta, shadow, inBufferMode, env);
    assert v.outs <= v1.outs && SearchTrigger !in v1.outs[|v.outs|..];
    assert v1.outs <= w.outs && SearchTrigger !in w.outs[|v1.outs|..];
    assert w.outs[|v.outs|..] == v1.outs[|v.outs|..] + w.outs[|v1.outs|..];
  }

  /** What buffer mode does with the time of its last sampling. */
  ghost predicate KeepsDistance(v: View, env: Env, w: View) {
    && (v.start > 0 ==> w.start >= v.start) && w.start <= env.now
    && (Triggers(v, w) ==>
          && w.start == env.now && w.sample == v.sample
          && (v.start > 0 && !IsButton(env.msg) ==> env.now >= v.start + v.sample))
  }

  lemma BufferKeepsDistance(v: View, env: Env)
    requires Inv(v) && ModeOf(v.leaf) == Buffer && v.start <= env.now
    ensures var w := StepBuffer(v, env);
            ModeOf(w.leaf) == Buffer ==> KeepsDistance(v, env, w)
  {
    hide GoBuffer, GoPassthrough, StepShadow, Sample, NewOuts;
    var connected, w := Connected(v.leaf), StepBuffer(v, env);
    if MovesBuffer(env.msg) {
      Lands(v, connected, true, env);
      GoBufferPublishes(v, !connected, false, env);
      NewOutsAre(v, v, []);
    } else {
      SamplePublishes(v, connected, env);
      ShadowPublishes(v, env);
      OtherPublishes(v, env);
    }
  }

  /** Everything else that buffer mode publishes. */
  lemma OtherPublishes(v: View, env: Env)
    ensures NewOuts(v, v) == []
    ensures NewOuts(v, Wait(v, v.sample, env.now)) == []
    ensures forall leaf ::
              NewOuts(v, Wait(Publish(v, [SensorRequests]).(leaf := leaf), v.sample, env.now)) == [SensorRequests]
    ensures NewOuts(v, RestartSend(v, env)) == []
    ensures NewOuts(v, Poll(RequestBatch(v, env))) == [BatchRequest(env.ms), FotaPoll, GetDelta]
    ensures NewOuts(v, RestartSend(Poll(RequestBatch(v, env)), env)) == [BatchRequest(env.ms), FotaPoll, GetDelta]
  {
    var sent := [BatchRequest(env.ms), FotaPoll, GetDelta];
    assert Poll(RequestBatch(v, env)).outs == v.outs + sent;
  }

  /** No step puts the start of sampling into the future; entering buffer mode puts it to now. */
  lemma StartsByNow(v: View, env: Env)
    requires Inv(v) && v.start <= env.now
    ensures Step(v, env).start <= env.now
    ensures ModeOf(v.leaf) != Buffer && ModeOf(Step(v, env).leaf) == Buffer ==> Step(v, env).start == env.now
  {
    hide StepBuffer, StepPassthrough, StepUpdate, Owned, HistoryMatches;
    match ModeOf(v.leaf) {
      case Buffer => BufferStartsByNow(v, env);
      case Passthrough => PassthroughStartsByNow(v, env);
      case Update => UpdateStartsByNow(v, env);
    }
  }

  lemma PassthroughStartsByNow(v: View, env: Env)
    requires ModeOf(v.leaf) == Passthrough && v.start <= env.now
    ensures var w := StepPassthrough(v, env);
            w.start <= env.now && (ModeOf(w.leaf) == Buffer ==> w.start == env.now)
  {
    hide GoBuffer, StepShadow;
    GoBufferPublishes(v, Connected(v.leaf), true, env);
    ShadowPublishes(v, env);
    ShadowKeeps(v, env);
  }

  lemma UpdateStartsByNow(v: View, env: Env)
    requires ModeOf(v.leaf) == Update && v.start <= env.now
    ensures var w := StepUpdate(v, env);
            w.start <= env.now && (ModeOf(w.leaf) == Buffer ==> w.start == env.now)
  {
    hide Resume;
    ResumeStartsByNow(v, env);
  }

  lemma ResumeStartsByNow(v: View, env: Env)
    requires v.start <= env.now
    ensures var w := Resume(v, env);
            w.start <= env.now && (w != v && ModeOf(w.leaf) == Buffer ==> w.start == env.now)
  {
    hide GoBuffer;
    GoBufferPublishes(v, true, true, env);
    GoBufferPublishes(v, false, true, env);
  }

  lemma BufferStartsByNow(v: View, env: Env)
    requires Inv(v) && ModeOf(v.leaf) == Buffer && v.start <= env.now
    ensures StepBuffer(v, env).start <= env.now
  {
    BufferKeepsDistance(v, env);
    BufferLeaves(v, env);
    hide StepBuffer;
  }

  lemma BufferLeaves(v: View, env: Env)
    requires ModeOf(v.leaf) == Buffer
    ensures var w := StepBuffer(v, env); ModeOf(w.leaf) == Buffer || w.start in {0, env.now, v.start}
  {
    hide GoBuffer, StepShadow, Sample;
    Lands(v, !Connected(v.leaf), false, env);
    Samples(v, Connected(v.leaf), env);
    ShadowKeeps(v, env);
  }

  ghost predicate Remembers(v: View, last: Option<nat>) {
    last.Some? ==> v.start > 0 && last.value <= v.start
  }

  lemma {:induction false} StartRemembers(v: View, envs: seq<Env>)
    requires Inv(v) && Clocked(v, envs)
    ensures Inv(After(v, envs)) && Remembers(After(v, envs), LastTrigger(v, envs))
    ensures envs != [] ==> After(v, envs).start <= envs[|envs| - 1].now
  {
    if envs != [] {
      var before, env := envs[..|envs| - 1], envs[|envs| - 1];
      StartRemembers(v, before);
      AlwaysInv(v, envs);
      var mid := After(v, before);
      assert before != [] ==> before[|before| - 1] == envs[|envs| - 2];
      StartsByNow(mid, env);
      if ModeOf(mid.leaf) == Buffer {
        BufferKeepsDistance(mid, env);
      }
      hide Inv, StepBuffer, StepPassthrough, StepUpdate, Triggers;
    }
  }

  /** Within one stay in buffer mode, a search that no button asked for begins at least the current sample
      interval after the search before it. */
  lemma SamplingRate(v: View, envs: seq<Env>, env: Env)
    requires Inv(v) && Clocked(v, envs + [env])
    requires var mid := After(v, envs);
             && ModeOf(mid.leaf) == Buffer && ModeOf(Step(mid, env).leaf) == Buffer
             && Triggers(mid, Step(mid, env)) && !IsButton(env.msg) && LastTrigger(v, envs).Some?
    ensures env.now >= LastTrigger(v, envs).value + After(v, envs).sample
  {
    assert (envs + [env])[|envs|] == env;
    assert forall i :: 0 <= i < |envs| ==> (envs + [env])[i] == envs[i];
    StartRemembers(v, envs);
    BufferKeepsDistance(After(v, envs), env);
    hide StepBuffer, LastTrigger, Triggers, Inv;
  }

  function Interval(v: View): UInt32 {
    if ModeOf(v.leaf) == Buffer then v.sample else v.update
  }

  /** The sample timer, if it runs, ends the interval that began with the last sampling, or has just been
      set because that interval is over. */
  predicate TimerOnTime(v: View, now: nat) {
    v.sampleTimer == None || v.sampleTimer == Some(Max(now, v.start + Interval(v)))
  }

  lemma SampleOnTime(v: View, connected: bool, entering: bool, env: Env)
    requires v.start <= env.now
    ensures TimerOnTime(Sample(v, connected, env), env.now)
    ensures TimerOnTime(GoBuffer(v, connected, entering, env), env.now)
    ensures TimerOnTime(GoPassthrough(v, connected, entering, env), env.now)
  {
  }

  lemma BufferTimerOnTime(v: View, env: Env)
    requires Inv(v) && ModeOf(v.leaf) == Buffer && v.start <= env.now
    ensures var w := StepBuffer(v, env); w.sampleTimer != v.sampleTimer ==> TimerOnTime(w, env.now)
  {
    hide GoBuffer, GoPassthrough, StepShadow, Sample;
    if MovesBuffer(env.msg) {
      hide TimerOnTime;
      SampleOnTime(v, Connected(v.leaf), true, env);
      SampleOnTime(v, !Connected(v.leaf), false, env);
      StoppedOnTime(v, env.now);
    } else {
      SampleOnTime(v, Connected(v.leaf), true, env);
      ShadowKeeps(v, env);
    }
  }

  lemma StoppedOnTime(v: View, now: nat)
    ensures TimerOnTime(Stopped(v).(leaf := FotaDownloading), now)
  {
  }

  lemma PassthroughTimerOnTime(v: View, env: Env)
    requires Inv(v) && ModeOf(v.leaf) == Passthrough && v.start <= env.now
    ensures var w := StepPassthrough(v, env); w.sampleTimer != v.sampleTimer ==> TimerOnTime(w, env.now)
  {
    hide GoBuffer, GoPassthrough, StepShadow;
    if MovesPassthrough(env.msg) {
      hide TimerOnTime;
      SampleOnTime(v, Connected(v.leaf), true, env);
      SampleOnTime(v, true, false, env);
      SampleOnTime(v, false, false, env);
    } else {
      ShadowKeeps(v, env);
    }
  }

  lemma UpdateTimerOnTime(v: View, env: Env)
    requires Inv(v) && ModeOf(v.leaf) == Update && v.start <= env.now
    ensures var w := StepUpdate(v, env); w.sampleTimer != v.sampleTimer ==> TimerOnTime(w, env.now)
  {
    hide GoBuffer, GoPassthrough, TimerOnTime;
    SampleOnTime(v, true, true, env);
    SampleOnTime(v, false, true, env);
  }

  /** Whatever the step, a sample timer that it sets is set right. */
  lemma StepSetsTimerOnTime(v: View, env: Env)
    requires Inv(v) && v.start <= env.now
    ensures var w := Step(v, env); w.sampleTimer != v.sampleTimer ==> TimerOnTime(w, env.now)
  {
    hide Inv, StepBuffer, StepPassthrough, StepUpdate, TimerOnTime;
    match ModeOf(v.leaf) {
      case Buffer => BufferTimerOnTime(v, env);
      case Passthrough => PassthroughTimerOnTime(v, env);
      case Update => UpdateTimerOnTime(v, env);
    }
  }

  /** Messages that, handled in turn, change neither the state nor the interval nor the start of sampling. */
  ghost predicate Undisturbed(v: View, envs: seq<Env>) {
    envs != [] ==>
      var mid, w := After(v, envs[..|envs| - 1]), After(v, envs);
      Undisturbed(v, envs[..|envs| - 1]) && (w.leaf, w.sample, w.start) == (mid.leaf, mid.sample, mid.start)
  }

  ghost predicate InTime(v: View, envs: seq<Env>) {
    forall i :: 0 <= i < |envs| ==> v.start <= envs[i].now <= v.start + v.sample
  }

  /** In buffer mode the sample timer ends the interval, if it runs. */
  ghost predicate OnSchedule(v: View) {
    && Inv(v) && ModeOf(v.leaf) == Buffer
    && v.sampleTimer == if Waiting(v.leaf) then Some(v.start + v.sample) else None
  }

  lemma StaysOnSchedule(v: View, env: Env)
    requires OnSchedule(v) && v.start <= env.now <= v.start + v.sample
    requires var w := Step(v, env); (w.leaf, w.sample, w.start) == (v.leaf, v.sample, v.start)
    ensures OnSchedule(Step(v, env))
  {
    hide StepBuffer, StepPassthrough, StepUpdate, HistoryMatches, Connected;
    StepKeepsInv(v, env);
    StepSetsTimerOnTime(v, env);
    if Waiting(v.leaf) {
      BufferTimers(v, env);
    }
  }

  lemma {:induction false} UndisturbedKeeps(v: View, envs: seq<Env>)
    requires OnSchedule(v) && Undisturbed(v, envs) && InTime(v, envs)
    ensures var w := After(v, envs); OnSchedule(w) && (w.leaf, w.sample, w.start) == (v.leaf, v.sample, v.start)
  {
    hide Step, OnSchedule;
    if envs != [] {
      UndisturbedKeeps(v, envs[..|envs| - 1]);
      StaysOnSchedule(After(v, envs[..|envs| - 1]), envs[|envs| - 1]);
    }
  }

  /** One period of prompt sampling, with whatever else is handled before and after its search ends. */
  datatype Round = Round(during: seq<Env>, done: nat, ms: UInt32, waiting: seq<Env>)

  function AfterSearch(v: View, r: Round): View {
    Step(After(v, r.during), Env(SearchDone, r.done, r.ms))
  }

  /** The timer's message is handled when it is due. */
  function Period(v: View, r: Round): View {
    var w := After(AfterSearch(v, r), r.waiting);
    if w.sampleTimer.Some? then Step(w.(sampleTimer := None), Env(SampleExpired, w.sampleTimer.value, r.ms)) else w
  }

  /** The search ends within its interval, and nothing else disturbs it. */
  ghost predicate PromptRound(v: View, r: Round) {
    && v.start <= r.done <= v.start + v.sample
    && Undisturbed(v, r.during) && InTime(v, r.during)
    && Undisturbed(AfterSearch(v, r), r.waiting) && InTime(v, r.waiting)
  }

  ghost predicate BufferSampling(v: View) {
    Inv(v) && (v.leaf == BufferDisconnectedSampling || v.leaf == BufferConnectedSampling) && v.start > 0
  }

  lemma SearchEndIs(v: View, done: nat, ms: UInt32)
    requires ModeOf(v.leaf) == Buffer && !Waiting(v.leaf)
    ensures var leaf := if Connected(v.leaf) then BufferConnectedWaiting else BufferDisconnectedWaiting;
            Step(v, Env(SearchDone, done, ms)) == Wait(Publish(v, [SensorRequests]).(leaf := leaf), v.sample, done)
  {
    hide GoBuffer, GoPassthrough, StepShadow, Wait;
  }

  lemma SearchEnds(v: View, done: nat, ms: UInt32)
    requires BufferSampling(v) && v.start <= done <= v.start + v.sample
    ensures var w := Step(v, Env(SearchDone, done, ms));
            OnSchedule(w) && Waiting(w.leaf) && w.start == v.start && w.sample == v.sample
  {
    hide Step, Inv;
    StepKeepsInv(v, Env(SearchDone, done, ms));
    SearchEndIs(v, done, ms);
  }

  lemma NextSearchBegins(v: View, ms: UInt32)
    requires OnSchedule(v) && Waiting(v.leaf) && v.start > 0
    ensures var w := Step(v.(sampleTimer := None), Env(SampleExpired, v.start + v.sample, ms));
            && BufferSampling(w) && w.start == v.start + v.sample && w.sample == v.sample
            && w.outs == v.outs + [SearchTrigger]
  {
    hide GoBuffer, GoPassthrough, StepShadow;
    StepKeepsInv(v.(sampleTimer := None), Env(SampleExpired, v.start + v.sample, ms));
  }

  lemma PeriodAdvances(v: View, r: Round)
    requires BufferSampling(v) && PromptRound(v, r)
    ensures var w := Period(v, r);
            && BufferSampling(w) && w.start == v.start + v.sample && w.sample == v.sample
            && w.outs != [] && w.outs[|w.outs| - 1] == SearchTrigger
  {
    hide Step, After, Undisturbed, InTime, OnSchedule;
    SamplingOnSchedule(v);
    UndisturbedKeeps(v, r.during);
    SearchedInTime(v, After(v, r.during));
    SearchEnds(After(v, r.during), r.done, r.ms);
    var u := AfterSearch(v, r);
    SameTimes(v, u, r.waiting);
    UndisturbedKeeps(u, r.waiting);
    var w := After(u, r.waiting);
    TimerDue(w);
    NextSearchBegins(w, r.ms);
  }

  lemma SamplingOnSchedule(v: View)
    requires BufferSampling(v)
    ensures OnSchedule(v)
  {
  }

  lemma SearchedInTime(v: View, w: View)
    requires BufferSampling(v) && OnSchedule(w) && (w.leaf, w.sample, w.start) == (v.leaf, v.sample, v.start)
    ensures BufferSampling(w)
  {
  }

  lemma SameTimes(v: View, w: View, envs: seq<Env>)
    requires InTime(v, envs) && w.start == v.start && w.sample == v.sample
    ensures InTime(w, envs)
  {
  }

  lemma TimerDue(w: View)
    requires OnSchedule(w) && Waiting(w.leaf)
    ensures w.sampleTimer == Some(w.start + w.sample)
  {
  }

  function Periods(v: View, rounds: seq<Round>): View {
    if rounds == [] then v else Period(Periods(v, rounds[..|rounds| - 1]), rounds[|rounds| - 1])
  }

  /** Each search ends in time. */
  ghost predicate Prompt(v: View, rounds: seq<Round>) {
    rounds != [] ==>
      Prompt(v, rounds[..|rounds| - 1]) && PromptRound(Periods(v, rounds[..|rounds| - 1]), rounds[|rounds| - 1])
  }

  /** However long each search takes, and whatever else is handled that disturbs neither state nor interval nor
      start, prompt sampling does not drift: the k-th search after begins exactly k intervals later. */
  lemma {:induction false} NoDrift(v: View, rounds: seq<Round>)
    requires BufferSampling(v) && Prompt(v, rounds)
    ensures var w := Periods(v, rounds);
            && BufferSampling(w) && w.start == v.start + |rounds| * v.sample && w.sample == v.sample
            && (rounds != [] ==> w.outs != [] && w.outs[|w.outs| - 1] == SearchTrigger)
  {
    hide Period, PromptRound, BufferSampling;
    if rounds != [] {
      NoDrift(v, rounds[..|rounds| - 1]);
      PeriodAdvances(Periods(v, rounds[..|rounds| - 1]), rounds[|rounds| - 1]);
      OneMore(v.start, |rounds| - 1, v.sample);
    }
  }

  lemma OneMore(start: nat, n: nat, interval: nat)
    ensures start + n * interval + interval == start + (n + 1) * interval
  {
  }
}
