/** Firmware updates: what precedes a reboot and an image being applied, in the application machine and
    together with the update module over their shared channel. */
module UpdateSafety {
  import opened Common
  import opened MainSpec
  import opened MainTransitions
  import opened MainRuns
  import opened MainTimers
  import Fota

  /** What the application takes and does, in order. */
  datatype Entry = Took(msg: Msg) | Did(out: Out)

  function Doings(outs: seq<Out>): (log: seq<Entry>)
    ensures |log| == |outs| && forall i :: 0 <= i < |outs| ==> log[i] == Did(outs[i])
  {
    seq(|outs|, i requires 0 <= i < |outs| => Did(outs[i]))
  }

  /** What the current stay in an update has seen, from the message that began it; empty outside updates. */
  function StayLog(v: View, envs: seq<Env>): seq<Entry> {
    if envs == [] then []
    else
      var before, env := envs[..|envs| - 1], envs[|envs| - 1];
      var mid, w := After(v, before), After(v, envs);
      if ModeOf(w.leaf) != Update then []
      else (if ModeOf(mid.leaf) == Update then StayLog(v, before) else []) + [Took(env.msg)] + Doings(NewOuts(mid, w))
  }

  /** What an update publishes as it moves on. */
  function StageOuts(leaf: State, to: State): seq<Out> {
    if leaf == to then []
    else
      match to
      case FotaWaitingForDisconnect => [DisconnectNetwork]
      case FotaWaitingForDisconnectToApply => [DisconnectNetwork]
      case FotaApplyingImage => [ApplyImage]
      case FotaRebooting => [ClearStorage, Reboot]
      case _ => []
  }

  lemma UpdateBeginsQuietly(v: View, env: Env)
    requires Inv(v) && ModeOf(v.leaf) != Update && ModeOf(Step(v, env).leaf) == Update
    ensures env.msg == FotaEvent(DownloadingUpdate)
    ensures Step(v, env) == Stopped(v).(leaf := FotaDownloading)
  {
    StepSummarizes(v, env);
    StepKeepsInv(v, env);
    BeginsBy(Step(v, env), Summarize(v), env.msg);
    hide GoBuffer, GoPassthrough, StepShadow, Sample, Follow, Summarize;
  }

  lemma BeginsBy(w: View, s: Summary, msg: Msg)
    requires ModeOf(w.leaf) == Update && IsLeaf(w.leaf) && s.stage == NoUpdate && Summarize(w) == Follow(s, msg)
    ensures msg == FotaEvent(DownloadingUpdate)
  {
  }

  lemma UpdateRowsQuiet(v: View, env: Env)
    requires ModeOf(v.leaf) == Update && IsLeaf(v.leaf) && !(env.msg.FotaEvent? && Stops(env.msg.fota))
    ensures var w := StepUpdate(v, env); w.outs == v.outs + StageOuts(v.leaf, w.leaf)
  {
    hide Resume, Remember, ModeOf;
    assert v.outs + [] == v.outs;
  }

  lemma UpdateMovesQuietly(v: View, env: Env)
    requires Inv(v) && ModeOf(v.leaf) == Update && ModeOf(StepUpdate(v, env).leaf) == Update
    ensures var w := StepUpdate(v, env); w.outs == v.outs + StageOuts(v.leaf, w.leaf)
  {
    hide Resume, StepUpdate, StageOuts;
    if env.msg.FotaEvent? && Stops(env.msg.fota) {
      Resumes(v, env);
      StopResumes(v, env);
    } else {
      UpdateRowsQuiet(v, env);
    }
  }

  /** While it stays in an update the application publishes only what the update itself needs: no search,
      no sensor request, no poll, no batch request. */
  lemma QuietInUpdate(v: View, env: Env)
    requires Inv(v) && ModeOf(Step(v, env).leaf) == Update
    ensures var w := Step(v, env);
            if ModeOf(v.leaf) == Update then NewOuts(v, w) == StageOuts(v.leaf, w.leaf)
            else w.leaf == FotaDownloading && NewOuts(v, w) == []
  {
    var w := Step(v, env);
    if ModeOf(v.leaf) != Update {
      UpdateBeginsQuietly(v, env);
      NewOutsAre(v, w, []);
    } else if v.leaf == FotaRebooting {
      NewOutsAre(v, w, []);
    } else {
      assert w == StepUpdate(v, env);
      UpdateMovesQuietly(v, env);
      NewOutsAre(v, w, StageOuts(v.leaf, w.leaf));
    }
  }

  /** The network was asked to go, and later went. */
  ghost predicate WentOffline(log: seq<Entry>) {
    exists i, j :: 0 <= i < j < |log| && log[i] == Did(DisconnectNetwork) && log[j] == Took(NetworkDisconnected)
  }

  /** How far the log of a stay must have come for the state it is in. */
  ghost predicate StayOk(leaf: State, log: seq<Entry>) {
    && (log == [] || log[0] == Took(FotaEvent(DownloadingUpdate)))
    && match leaf
       case FotaDownloading => true
       case FotaWaitingForDisconnect =>
         Took(FotaEvent(SuccessRebootNeeded)) in log && Did(DisconnectNetwork) in log
       case FotaWaitingForDisconnectToApply => Did(DisconnectNetwork) in log
       case FotaApplyingImage => WentOffline(log)
       case FotaRebooting =>
         && Took(FotaEvent(SuccessRebootNeeded)) in log && WentOffline(log)
         && exists k :: 0 <= k < |log| - 1 && log[k] == Did(ClearStorage) && log[k + 1] == Did(Reboot)
       case _ => true
  }

  lemma LogGrows(log: seq<Entry>, more: seq<Entry>)
    ensures WentOffline(log) ==> WentOffline(log + more)
    ensures Did(DisconnectNetwork) in log && Took(NetworkDisconnected) in more ==> WentOffline(log + more)
  {
    if WentOffline(log) {
      var i, j :| 0 <= i < j < |log| && log[i] == Did(DisconnectNetwork) && log[j] == Took(NetworkDisconnected);
      assert (log + more)[i] == Did(DisconnectNetwork) && (log + more)[j] == Took(NetworkDisconnected);
    }
    if Did(DisconnectNetwork) in log && Took(NetworkDisconnected) in more {
      var i :| 0 <= i < |log| && log[i] == Did(DisconnectNetwork);
      var j :| 0 <= j < |more| && more[j] == Took(NetworkDisconnected);
      assert (log + more)[i] == Did(DisconnectNetwork) && (log + more)[|log| + j] == Took(NetworkDisconnected);
    }
  }

  /** The message that takes an update from one state to another. */
  predicate MovesBy(leaf: State, msg: Msg, to: State) {
    match to
    case FotaWaitingForDisconnect => msg == FotaEvent(SuccessRebootNeeded)
    case FotaWaitingForDisconnectToApply => true
    case FotaApplyingImage => leaf == FotaWaitingForDisconnectToApply && msg == NetworkDisconnected
    case FotaRebooting =>
      || (leaf == FotaWaitingForDisconnect && msg == NetworkDisconnected)
      || (leaf == FotaApplyingImage && msg == FotaEvent(SuccessRebootNeeded))
    case _ => false
  }

  lemma RowsMove(v: View, env: Env)
    requires ModeOf(v.leaf) == Update && IsLeaf(v.leaf) && !(env.msg.FotaEvent? && Stops(env.msg.fota))
    ensures var w := StepUpdate(v, env); w.leaf == v.leaf || MovesBy(v.leaf, env.msg, w.leaf)
  {
    hide Resume, Remember, ModeOf;
  }

  /** The moves within an update. */
  lemma MovesOnlyOn(v: View, env: Env)
    requires Inv(v) && ModeOf(v.leaf) == Update
    requires var w := Step(v, env); ModeOf(w.leaf) == Update && w.leaf != v.leaf
    ensures MovesBy(v.leaf, env.msg, Step(v, env).leaf)
  {
    hide Resume, StepUpdate, MovesBy;
    if env.msg.FotaEvent? && Stops(env.msg.fota) {
      Resumes(v, env);
      StopResumes(v, env);
    } else {
      RowsMove(v, env);
    }
  }

  /** One more step of a stay. */
  lemma StayStep(v: View, env: Env, log: seq<Entry>)
    requires Inv(v) && ModeOf(v.leaf) == Update && ModeOf(Step(v, env).leaf) == Update
    requires StayOk(v.leaf, log) && log != []
    ensures var w := Step(v, env);
            StayOk(w.leaf, log + [Took(env.msg)] + Doings(NewOuts(v, w)))
  {
    var w := Step(v, env);
    QuietInUpdate(v, env);
    if w.leaf != v.leaf {
      MovesOnlyOn(v, env);
    }
    StayGrows(v.leaf, w.leaf, log, env.msg);
  }

  lemma StayGrows(leaf: State, to: State, log: seq<Entry>, msg: Msg)
    requires StayOk(leaf, log) && log != []
    requires to == leaf || MovesBy(leaf, msg, to)
    ensures StayOk(to, log + [Took(msg)] + Doings(StageOuts(leaf, to)))
  {
    var did := Doings(StageOuts(leaf, to));
    var more := [Took(msg)] + did;
    var grown := log + [Took(msg)] + did;
    assert grown == log + more && more[0] == Took(msg) && grown[0] == log[0];
    LogGrows(log, more);
    assert forall e :: e in log ==> e in grown;
    assert Took(msg) in grown;
    hide WentOffline;
    if to == leaf {
      if leaf == FotaRebooting {
        var k :| 0 <= k < |log| - 1 && log[k] == Did(ClearStorage) && log[k + 1] == Did(Reboot);
        assert grown[k] == Did(ClearStorage) && grown[k + 1] == Did(Reboot);
      }
    } else if to == FotaRebooting {
      assert grown[|log| + 1] == Did(ClearStorage) && grown[|log| + 2] == Did(Reboot);
    } else if to != FotaApplyingImage {
      assert grown[|log| + 1] == Did(DisconnectNetwork);
    }
  }

  /** Every reboot is preceded, in the same stay, by the update's word that one is needed, by the network
      being asked to go and then going, and by the order to clear the storage; an image is ordered to be
      applied only after the network has gone. */
  lemma {:induction false} StaysOk(v: View, envs: seq<Env>)
    requires Inv(v) && ModeOf(v.leaf) != Update
    ensures var w := After(v, envs);
            ModeOf(w.leaf) == Update ==> StayLog(v, envs) != [] && StayOk(w.leaf, StayLog(v, envs))
  {
    if envs != [] {
      var before, env := envs[..|envs| - 1], envs[|envs| - 1];
      var mid, w := After(v, before), After(v, envs);
      StaysOk(v, before);
      AlwaysInv(v, before);
      if ModeOf(w.leaf) == Update {
        if ModeOf(mid.leaf) == Update {
          StayStep(mid, env, StayLog(v, before));
        } else {
          UpdateBeginsQuietly(mid, env);
          QuietInUpdate(mid, env);
        }
      }
    }
  }

  /** So in every run from start-up. */
  lemma StaysOkFromStart(mode: State, sample: UInt32, update: UInt32, now: nat, ms: UInt32, envs: seq<Env>)
    requires ModeState(mode)
    ensures var v := Initial(mode, sample, update, now, ms);
            ModeOf(After(v, envs).leaf) == Update ==> StayOk(After(v, envs).leaf, StayLog(v, envs))
  {
    hide StayLog, StayOk, Inv, Initial;
    StartsInv(mode, sample, update, now, ms);
    StaysOk(Initial(mode, sample, update, now, ms), envs);
  }

  predicate ForUpdates(out: Out) {
    out.DisconnectNetwork? || out.ApplyImage? || out.ClearStorage? || out.Reboot?
  }

  /** Outside updates nothing of theirs is published. */
  lemma OnlyInUpdates(v: View, env: Env)
    requires Inv(v) && ModeOf(Step(v, env).leaf) != Update
    ensures forall out :: out in NewOuts(v, Step(v, env)) ==> !ForUpdates(out)
  {
    hide StepBuffer, StepPassthrough, StepUpdate, Inv;
    match ModeOf(v.leaf) {
      case Buffer => BufferHasNone(v, env);
      case Passthrough => PassthroughHasNone(v, env);
      case Update => ResumeHasNone(v, env);
    }
  }

  ghost predicate NoneForUpdates(v: View, w: View) {
    v.outs <= w.outs && forall i :: |v.outs| <= i < |w.outs| ==> !ForUpdates(w.outs[i])
  }

  lemma NoneInNewOuts(v: View, w: View)
    requires NoneForUpdates(v, w)
    ensures forall out :: out in NewOuts(v, w) ==> !ForUpdates(out)
  {
  }

  lemma HelpersHaveNone(v: View, connected: bool, entering: bool, env: Env)
    ensures NoneForUpdates(v, GoBuffer(v, connected, entering, env))
    ensures NoneForUpdates(v, GoPassthrough(v, connected, entering, env))
    ensures NoneForUpdates(v, Sample(v, connected, env))
  {
    SampleHasNone(v, connected, env);
    var v1 := if entering then v.(start := 0, sendTimer := Some(env.now + v.update)) else v;
    var v2 := v1.(history := if connected then BufferConnected else BufferDisconnected);
    var v3 := if connected then PollShadowOnce(v2) else v2;
    SampleHasNone(v3, connected, env);
    hide Sample, BeginSampling;
  }

  lemma SampleHasNone(v: View, connected: bool, env: Env)
    ensures NoneForUpdates(v, Sample(v, connected, env))
  {
  }

  lemma ShadowHasNone(v: View, env: Env)
    ensures NoneForUpdates(v, StepShadow(v, env))
  {
    match env.msg
    case ShadowResponse(delta, Some(shadow)) =>
      ParamsHaveNone(v, shadow.params, env);
      hide ApplyParams;
    case _ =>
  }

  lemma ParamsHaveNone(v: View, p: Params, env: Env)
    ensures NoneForUpdates(v, ApplyParams(v, p, env))
  {
  }

  lemma BufferMovesHaveNone(v: View, env: Env)
    requires ModeOf(v.leaf) == Buffer && MovesBuffer(env.msg)
    ensures NoneForUpdates(v, StepBuffer(v, env))
  {
    hide GoBuffer, GoPassthrough, NoneForUpdates;
    HelpersHaveNone(v, !Connected(v.leaf), false, env);
    HelpersHaveNone(v, Connected(v.leaf), true, env);
    StandingHasNone(v, v);
    StandingHasNone(v, Stopped(v).(leaf := FotaDownloading));
  }

  lemma StandingHasNone(v: View, w: View)
    requires w.outs == v.outs
    ensures NoneForUpdates(v, w)
  {
  }

  lemma BufferStaysHaveNone(v: View, env: Env)
    requires ModeOf(v.leaf) == Buffer && !MovesBuffer(env.msg)
    ensures NoneForUpdates(v, StepBuffer(v, env))
  {
    hide GoBuffer, GoPassthrough, StepShadow, Sample;
    SampleHasNone(v, Connected(v.leaf), env);
    ShadowHasNone(v, env);
  }

  lemma BufferHasNone(v: View, env: Env)
    requires ModeOf(v.leaf) == Buffer
    ensures forall out :: out in NewOuts(v, StepBuffer(v, env)) ==> !ForUpdates(out)
  {
    hide StepBuffer, NewOuts, NoneForUpdates, MovesBuffer;
    if MovesBuffer(env.msg) {
      BufferMovesHaveNone(v, env);
    } else {
      BufferStaysHaveNone(v, env);
    }
    NoneInNewOuts(v, StepBuffer(v, env));
  }

  lemma PassthroughHasNone(v: View, env: Env)
    requires ModeOf(v.leaf) == Passthrough
    ensures forall out :: out in NewOuts(v, StepPassthrough(v, env)) ==> !ForUpdates(out)
  {
    hide GoBuffer, GoPassthrough, StepShadow;
    if MovesPassthrough(env.msg) {
      HelpersHaveNone(v, true, false, env);
      HelpersHaveNone(v, false, false, env);
      HelpersHaveNone(v, Connected(v.leaf), true, env);
    } else {
      ShadowHasNone(v, env);
    }
    NoneInNewOuts(v, StepPassthrough(v, env));
  }

  lemma ResumeHasNone(v: View, env: Env)
    requires Inv(v) && ModeOf(v.leaf) == Update && ModeOf(Step(v, env).leaf) != Update
    ensures forall out :: out in NewOuts(v, Step(v, env)) ==> !ForUpdates(out)
  {
    hide GoBuffer, GoPassthrough;
    assert Step(v, env) == Resume(v, env);
    hide StepUpdate, StepBuffer, StepPassthrough, Owned;
    HelpersHaveNone(v, true, true, env);
    HelpersHaveNone(v, false, true, env);
    NoneInNewOuts(v, Resume(v, env));
  }

  /** The steps of a run that order an image to be applied or the device to reboot come after the network
      has gone, in their own stay. */
  lemma OrdersComeOffline(v: View, envs: seq<Env>, out: Out)
    requires Inv(v) && ModeOf(v.leaf) != Update && envs != []
    requires out == ApplyImage || out == Reboot
    requires out in NewOuts(After(v, envs[..|envs| - 1]), After(v, envs))
    ensures ModeOf(After(v, envs).leaf) == Update && WentOffline(StayLog(v, envs))
    ensures out == Reboot ==> Took(FotaEvent(SuccessRebootNeeded)) in StayLog(v, envs)
  {
    var before, env := envs[..|envs| - 1], envs[|envs| - 1];
    var mid := After(v, before);
    AlwaysInv(v, before);
    if ModeOf(After(v, envs).leaf) != Update {
      OnlyInUpdates(mid, env);
    } else {
      QuietInUpdate(mid, env);
      StaysOk(v, envs);
      hide WentOffline, StayLog, Step, Inv, NewOuts;
    }
  }

  // ---- With the update module ----

  /** Both modules, their queues, and how often the update library was told to apply an image. `taken` is
      what the application has processed so far. */
  datatype Together = Together(
    app: View,
    taken: seq<Env>,
    stage: Fota.Stage,
    toApp: seq<Msg>,
    toUpdate: seq<FotaMsg>,
    applied: nat)

  /** A thread takes its next message; the update library, or anyone else, publishes on FOTA_CHAN anything
      but the order to apply, which only the application gives; or another channel has a message. */
  datatype Event =
    | AppTakes(now: nat, ms: UInt32)
    | UpdateTakes(job: bool)
    | Published(fota: FotaMsg)
    | Arrives(msg: Msg)

  predicate Possible(s: Together, e: Event) {
    match e
    case AppTakes(_, _) => s.toApp != [] && s.app.leaf != FotaRebooting
    case UpdateTakes(_) => s.toUpdate != []
    case Published(fota) => fota != ImageApply
    case Arrives(msg) => !msg.FotaEvent?
  }

  /** What the application says on FOTA_CHAN. */
  function FotaNews(outs: seq<Out>): seq<FotaMsg> {
    if outs == [] then []
    else
      FotaNews(outs[..|outs| - 1])
      + match outs[|outs| - 1]
        case FotaPoll => [PollRequest]
        case ApplyImage => [ImageApply]
        case _ => []
  }

  function Heard(news: seq<FotaMsg>): seq<Msg> {
    seq(|news|, i requires 0 <= i < |news| => FotaEvent(news[i]))
  }

  function Happens(s: Together, e: Event): Together
    requires Possible(s, e)
  {
    match e
    case AppTakes(now, ms) =>
      var env := Env(s.toApp[0], now, ms);
      var app' := Step(s.app, env);
      var news := FotaNews(NewOuts(s.app, app'));
      s.(app := app', taken := s.taken + [env], toApp := s.toApp[1..] + Heard(news), toUpdate := s.toUpdate + news)
    case UpdateTakes(job) =>
      var (stage, acts) := Fota.React(s.stage, s.toUpdate[0], job);
      var news := if Fota.PublishNoUpdate in acts then [NoAvailableUpdate] else [];
      s.(stage := stage, toApp := s.toApp + Heard(news), toUpdate := s.toUpdate[1..] + news,
         applied := s.applied + if Fota.ApplyUpdate in acts then 1 else 0)
    case Published(fota) => s.(toApp := s.toApp + Heard([fota]), toUpdate := s.toUpdate + [fota])
    case Arrives(msg) => s.(toApp := s.toApp + [msg])
  }

  /** How many steps of a run order an image to be applied. */
  function Orders(v: View, envs: seq<Env>): nat {
    if envs == [] then 0
    else
      var before := envs[..|envs| - 1];
      Orders(v, before) + if ApplyImage in NewOuts(After(v, before), After(v, envs)) then 1 else 0
  }

  function Pending(msgs: seq<FotaMsg>): nat {
    if msgs == [] then 0 else (if msgs[0] == ImageApply then 1 else 0) + Pending(msgs[1..])
  }

  lemma {:induction false} PendingConcat(a: seq<FotaMsg>, b: seq<FotaMsg>)
    ensures Pending(a + b) == Pending(a) + Pending(b)
  {
    if a == [] {
      assert a + b == b;
    } else {
      PendingConcat(a[1..], b);
      assert (a + b)[1..] == a[1..] + b;
    }
  }

  lemma {:induction false} NewsPending(outs: seq<Out>)
    ensures ApplyImage !in outs ==> Pending(FotaNews(outs)) == 0
    ensures outs == [ApplyImage] ==> Pending(FotaNews(outs)) == 1
  {
    if outs != [] {
      var front := outs[..|outs| - 1];
      NewsPending(front);
      assert Pending([PollRequest]) == 0 && Pending([ImageApply]) == 1 && Pending([]) == 0 by {
        assert [PollRequest][1..] == [] && [ImageApply][1..] == [];
      }
      PendingConcat(FotaNews(front), [PollRequest]);
      PendingConcat(FotaNews(front), [ImageApply]);
      PendingConcat(FotaNews(front), []);
    }
  }

  /** Orders given are applied, still on their way, or ignored. */
  ghost predicate Safe(v: View, s: Together) {
    && Inv(v) && ModeOf(v.leaf) != Update
    && s.app == After(v, s.taken)
    && s.applied + Pending(s.toUpdate) <= Orders(v, s.taken)
  }

  /** A step's news on FOTA_CHAN holds an order exactly if the step gave one. */
  lemma StepOrders(v: View, env: Env)
    requires Inv(v)
    ensures var outs := NewOuts(v, Step(v, env));
            Pending(FotaNews(outs)) == if ApplyImage in outs then 1 else 0
  {
    var outs := NewOuts(v, Step(v, env));
    hide Step, NewOuts, FotaNews, Pending, Inv;
    NewsPending(outs);
    if ModeOf(Step(v, env).leaf) == Update {
      QuietInUpdate(v, env);
    } else {
      OnlyInUpdates(v, env);
    }
  }

  lemma AppTakesSafely(v: View, s: Together, now: nat, ms: UInt32)
    requires Safe(v, s) && Possible(s, AppTakes(now, ms))
    ensures Safe(v, Happens(s, AppTakes(now, ms)))
  {
    hide Step, NewOuts, FotaNews, Pending, Inv, Heard;
    var env := Env(s.toApp[0], now, ms);
    var taken := s.taken + [env];
    assert taken[..|taken| - 1] == s.taken;
    AlwaysInv(v, s.taken);
    StepOrders(s.app, env);
    PendingConcat(s.toUpdate, FotaNews(NewOuts(s.app, Step(s.app, env))));
  }

  /** The library is told to apply an image only on the application's order. */
  lemma ApplyTakesOrder(stage: Fota.Stage, msg: FotaMsg, job: bool)
    ensures var acts := Fota.React(stage, msg, job).1;
            Fota.ApplyUpdate in acts <==> stage == Fota.WaitingForImageApply && msg == ImageApply
  {
  }

  lemma UpdateTakesSafely(v: View, s: Together, job: bool)
    requires Safe(v, s) && Possible(s, UpdateTakes(job))
    ensures Safe(v, Happens(s, UpdateTakes(job)))
  {
    hide Inv, After, Orders, Fota.React, Heard;
    var acts := Fota.React(s.stage, s.toUpdate[0], job).1;
    var news := if Fota.PublishNoUpdate in acts then [NoAvailableUpdate] else [];
    PendingConcat(s.toUpdate[1..], news);
    assert Pending(news) == 0;
    ApplyTakesOrder(s.stage, s.toUpdate[0], job);
  }

  lemma HappensSafely(v: View, s: Together, e: Event)
    requires Safe(v, s) && Possible(s, e)
    ensures Safe(v, Happens(s, e))
  {
    match e
    case AppTakes(now, ms) => AppTakesSafely(v, s, now, ms);
    case UpdateTakes(job) => UpdateTakesSafely(v, s, job);
    case Published(fota) =>
      PendingConcat(s.toUpdate, [fota]);
      hide Inv, After, Orders;
    case Arrives(_) =>
  }

  ghost predicate Occurs(s: Together, es: seq<Event>)
    decreases es
  {
    es != [] ==> Possible(s, es[0]) && Occurs(Happens(s, es[0]), es[1..])
  }

  ghost function Finally(s: Together, es: seq<Event>): Together
    requires Occurs(s, es)
    decreases es
  {
    if es == [] then s else Finally(Happens(s, es[0]), es[1..])
  }

  lemma {:induction false} AlwaysSafe(v: View, s: Together, es: seq<Event>)
    requires Safe(v, s) && Occurs(s, es)
    ensures Safe(v, Finally(s, es))
    decreases es
  {
    if es != [] {
      HappensSafely(v, s, es[0]);
      AlwaysSafe(v, Happens(s, es[0]), es[1..]);
    }
  }

  /** The steps of a run that order an image to be applied. */
  ghost function OrderSteps(v: View, envs: seq<Env>): set<nat> {
    set k: nat | 0 < k <= |envs| && OrdersAt(v, envs, k)
  }

  ghost predicate OrdersAt(v: View, envs: seq<Env>, k: nat)
    requires 0 < k <= |envs|
  {
    ApplyImage in NewOuts(After(v, envs[..k - 1]), After(v, envs[..k]))
  }

  lemma OrdersOnPrefix(v: View, envs: seq<Env>, n: nat, k: nat)
    requires 0 < k <= n <= |envs|
    ensures OrdersAt(v, envs, k) <==> OrdersAt(v, envs[..n], k)
  {
    hide NewOuts, After;
    assert envs[..n][..k] == envs[..k] && envs[..n][..k - 1] == envs[..k - 1];
  }

  lemma NextOrderStep(v: View, envs: seq<Env>)
    requires envs != []
    ensures var n, before := |envs|, OrderSteps(v, envs[..|envs| - 1]);
            n !in before && OrderSteps(v, envs) == before + if OrdersAt(v, envs, n) then {n} else {}
  {
    hide OrdersAt;
    forall k: nat | 0 < k < |envs|
      ensures OrdersAt(v, envs, k) <==> OrdersAt(v, envs[..|envs| - 1], k)
    {
      OrdersOnPrefix(v, envs, |envs| - 1, k);
    }
  }

  lemma {:induction false} OrdersAreSteps(v: View, envs: seq<Env>)
    ensures |OrderSteps(v, envs)| == Orders(v, envs)
  {
    hide NewOuts, After, OrderSteps;
    if envs == [] {
      NoOrderSteps(v);
    } else {
      OrdersAreSteps(v, envs[..|envs| - 1]);
      NextOrderStep(v, envs);
      assert envs[..|envs|] == envs;
    }
  }

  lemma NoOrderSteps(v: View)
    ensures OrderSteps(v, []) == {}
  {
    hide OrdersAt;
  }

  lemma OrdersOffline(v: View, envs: seq<Env>)
    requires Inv(v) && ModeOf(v.leaf) != Update
    ensures forall k :: k in OrderSteps(v, envs) ==> WentOffline(StayLog(v, envs[..k]))
  {
    hide Inv, NewOuts, After, WentOffline, StayLog;
    forall k | k in OrderSteps(v, envs)
      ensures WentOffline(StayLog(v, envs[..k]))
    {
      assert envs[..k][..k - 1] == envs[..k - 1];
      OrdersComeOffline(v, envs[..k], ApplyImage);
    }
  }

  lemma SafeAtFirst(v: View, stage: Fota.Stage)
    requires Inv(v) && ModeOf(v.leaf) != Update
    ensures Safe(v, Together(v, [], stage, [], [], 0))
  {
    hide Inv;
  }

  /** Across both modules: however their threads interleave and whatever the library reports, an image is
      applied at most as often as the application has ordered it, and each order came in a stay in which the
      network, asked to go, had gone. */
  lemma AppliedOnlyOffline(v: View, stage: Fota.Stage, es: seq<Event>)
    requires Inv(v) && ModeOf(v.leaf) != Update
    requires Occurs(Together(v, [], stage, [], [], 0), es)
    ensures var s := Finally(Together(v, [], stage, [], [], 0), es);
            && s.applied <= |OrderSteps(v, s.taken)|
            && forall k :: k in OrderSteps(v, s.taken) ==> WentOffline(StayLog(v, s.taken[..k]))
  {
    hide Inv, OrderSteps, WentOffline, StayLog, Occurs, Happens, After, Orders, Pending, Finally;
    var s0 := Together(v, [], stage, [], [], 0);
    SafeAtFirst(v, stage);
    AlwaysSafe(v, s0, es);
    var s := Finally(s0, es);
    OrdersAreSteps(v, s.taken);
    OrdersOffline(v, s.taken);
  }
}
