/** The application module: its state object, its handlers and the framework's dispatch, and the proof that
    one message does exactly what the flat table in MainSpec says. */
module Application {
  import opened Common
  import opened MainSpec
  import opened MainTransitions
  import Smf

  class Application {
    /** INITIAL_MODE. */
    const mode: State

    var current: State
    var history: State
    var start: nat
    var sample: UInt32
    var update: UInt32
    var polled: bool
    var session: UInt32
    var sampleTimer: Option<nat>
    var sendTimer: Option<nat>
    var outbox: seq<Out>

    ghost function State(): View
      reads this
    {
      View(current, history, start, sample, update, polled, session, sampleTimer, sendTimer, outbox)
    }

    /** Start-up: the framework enters the initial state, its ancestors first. */
    constructor (mode: State, sample: UInt32, update: UInt32, now: nat, ms: UInt32)
      requires ModeState(mode)
      ensures this.mode == mode
      ensures State() == Initial(mode, sample, update, now, ms)
    {
      this.mode, this.sample, this.update := mode, sample, update;
      current, history, start, polled, session := LeafOf(Running, mode), Running, 0, false, 0;
      sampleTimer, sendTimer, outbox := None, None, [];
      new;
      var env := Env(LocationOther, now, ms);
      assert Path(current)[0..] == Path(current);
      EnterAll(0, env);
      InitialEntries(mode, sample, update, now, ms);
    }

    method Send(outs: seq<Out>)
      modifies this`outbox
      ensures State() == Publish(old(State()), outs)
    {
      outbox := outbox + outs;
    }

    method TimerSampleStart(delay: nat, now: nat)
      modifies this`sampleTimer
      ensures State() == old(State()).(sampleTimer := Some(now + delay))
    {
      sampleTimer := Some(now + delay);
    }

    method TimerSendDataStart(delay: nat, now: nat)
      modifies this`sendTimer
      ensures State() == old(State()).(sendTimer := Some(now + delay))
    {
      sendTimer := Some(now + delay);
    }

    method TimerSampleStop()
      modifies this`sampleTimer
      ensures State() == old(State()).(sampleTimer := None)
    {
      sampleTimer := None;
    }

    method TimerSendDataStop()
      modifies this`sendTimer
      ensures State() == old(State()).(sendTimer := None)
    {
      sendTimer := None;
    }

    // ---- Entry and exit actions ----

    method PollShadowOnConnect()
      modifies this`polled, this`outbox
      ensures State() == PollShadowOnce(old(State()))
    {
      if !polled {
        Send([GetDesired]);
        polled := true;
      }
    }

    method SamplingBeginCommon(fallback: State, env: Env)
      requires ModeState(mode) && current in {BufferDisconnectedSampling, BufferConnectedSampling}
      requires fallback == WaitingState(current == BufferConnectedSampling)
      modifies this
      ensures State() == BeginSampling(old(State()), env, fallback)
      decreases 1, 1
    {
      var elapsed := env.now - start;
      if start > 0 && elapsed < sample && !IsButton(env.msg) {
        BufferWaits(State(), current == BufferConnectedSampling, mode, env);
        SetState(current, fallback, env);
        return;
      }
      start := env.now;
      Send([SearchTrigger]);
    }

    method WaitingEntryCommon(interval: UInt32, env: Env)
      modifies this`sampleTimer
      ensures State() == Wait(old(State()), interval, env.now)
      ensures sampleTimer == Some(Max(env.now, start + interval))
    {
      var elapsed := env.now - start;
      var remaining := 0;
      if elapsed <= interval {
        remaining := interval - elapsed;
      }
      TimerSampleStart(remaining, env.now);
    }

    method EntryAction(s: State, env: Env)
      requires ModeState(mode) && (IsLeaf(s) ==> current == s)
      modifies this
      ensures State() == Entry(s, old(State()), env)
      decreases Rank(s), 2
    {
      match s {
        case BufferMode =>
          start := 0;
          TimerSendDataStart(update, env.now);
        case BufferDisconnected =>
          history := BufferDisconnected;
        case BufferConnected =>
          history := BufferConnected;
          PollShadowOnConnect();
        case BufferDisconnectedSampling =>
          SamplingBeginCommon(BufferDisconnectedWaiting, env);
        case BufferConnectedSampling =>
          SamplingBeginCommon(BufferConnectedWaiting, env);
        case BufferDisconnectedWaiting =>
          WaitingEntryCommon(sample, env);
        case BufferConnectedWaiting =>
          WaitingEntryCommon(sample, env);
        case PassthroughMode =>
          start := 0;
          TimerSampleStop();
          TimerSendDataStop();
        case PassthroughDisconnected =>
          history := PassthroughDisconnected;
          TimerSampleStop();
        case PassthroughConnected =>
          history := PassthroughConnected;
          PollShadowOnConnect();
        case PassthroughConnectedSampling =>
          history := PassthroughConnectedSampling;
          start := env.now;
          Send([SearchTrigger]);
        case PassthroughConnectedWaiting =>
          WaitingEntryCommon(update, env);
        case Fota =>
          TimerSampleStop();
          TimerSendDataStop();
        case FotaWaitingForDisconnect =>
          Send([DisconnectNetwork]);
        case FotaWaitingForDisconnectToApply =>
          Send([DisconnectNetwork]);
          TimerSampleStop();
          TimerSendDataStop();
        case FotaApplyingImage =>
          Send([ApplyImage]);
        case FotaRebooting =>
          Send([ClearStorage, Reboot]);
        case _ =>
      }
    }

    method ExitAction(s: State)
      modifies this`sampleTimer, this`sendTimer
      ensures State() == Exit(s, old(State()))
    {
      match s {
        case BufferMode =>
          TimerSampleStop();
          TimerSendDataStop();
        case PassthroughMode =>
          TimerSampleStop();
        case BufferDisconnectedWaiting =>
          TimerSampleStop();
        case BufferConnectedWaiting =>
          TimerSampleStop();
        case PassthroughConnectedWaiting =>
          TimerSampleStop();
        case _ =>
      }
    }

    /** Exit actions of the states below depth `top`, leaf first. */
    method ExitAll(top: nat)
      requires top <= |Path(current)|
      modifies this`sampleTimer, this`sendTimer
      ensures State() == Exits(Path(current)[top..], old(State()))
    {
      hide Exit, Path;
      var path, i := Path(current), |Path(current)|;
      ghost var left := Exits(path[top..], State());
      assert path[top..i] == path[top..];
      while i > top
        invariant top <= i <= |path|
        invariant Exits(path[top..i], State()) == left
      {
        i := i - 1;
        assert path[top..i + 1][..i - top] == path[top..i];
        ExitAction(path[i]);
      }
    }

    /** Entry actions of the states below depth `top` on the way to the current leaf. */
    method EnterAll(top: nat, env: Env)
      requires ModeState(mode) && IsLeaf(current) && top <= |Path(current)|
      modifies this
      ensures State() == Entries(old(Path(current)[top..]), old(State()), env)
      decreases Rank(current), 3
    {
      PathEndsInLeaf(current);
      hide Entry, Entries, Path, IsLeaf, Rank;
      var path, leaf := Path(current), current;
      ghost var done := Entries(path[top..], State(), env);
      for j := top to |path|
        invariant j < |path| ==> current == leaf
        invariant Entries(path[j..], State(), env) == done
      {
        NextEntry(path, j, State(), env);
        EntryKeepsLeaf(path[j], State(), env);
        EntryAction(path[j], env);
      }
      NextEntry(path, |path|, State(), env);
    }

    /** `smf_set_state`: exits up to the common ancestor, leaf first, then entries down to the target and
        along its initial transitions. */
    method SetState(executing: State, target: State, env: Env)
      requires ModeState(mode) && Path(executing) <= Path(current)
      modifies this
      ensures State() == Transition(old(State()), executing, target, mode, env)
      decreases Rank(LeafOf(target, mode)), 4
    {
      hide Entries, Exits, Path, LeafOf;
      var top := Smf.Top(Path(executing), Path(target));
      ExitAll(top);
      current := LeafOf(target, mode);
      EnterAll(top, env);
    }

    // ---- Helpers of the run handlers ----

    method PollTriggersSend()
      modifies this`outbox
      ensures State() == Poll(old(State()))
    {
      Send([FotaPoll]);
      Send([GetDelta]);
      assert old(outbox) + [FotaPoll] + [GetDelta] == old(outbox) + [FotaPoll, GetDelta];
    }

    method StorageSendData(env: Env)
      modifies this`session, this`outbox
      ensures State() == RequestBatch(old(State()), env)
    {
      session := env.ms;
      Send([BatchRequest(session)]);
    }

    method CloudSendNow(env: Env)
      modifies this`session, this`outbox, this`sendTimer
      ensures State() == RestartSend(Poll(RequestBatch(old(State()), env)), env)
    {
      StorageSendData(env);
      PollTriggersSend();
      TimerSendDataStart(update, env.now);
    }

    method ConfigApply(p: Params, env: Env)
      modifies this`sample, this`update, this`start, this`outbox
      ensures State() == ApplyParams(old(State()), p, env)
      ensures sample == (if p.sample != 0 then p.sample else old(sample))
      ensures update == (if p.update != 0 then p.update else old(update))
      ensures if p.sample != 0 || p.update != 0 || p.bufferModeValid then
                old(outbox) + [ModeRequest(p.bufferModeValid && p.bufferMode)] <= outbox
              else outbox == old(outbox)
    {
      var request, changed := ModeRequest(false), false;
      if p.sample == 0 && p.update == 0 && !p.bufferModeValid {
        return;
      }
      if p.sample != 0 && p.sample != sample {
        sample := p.sample;
        changed := true;
      }
      if p.update != 0 && p.update != update {
        update := p.update;
        changed := true;
      }
      if p.bufferMode && p.bufferModeValid {
        request := ModeRequest(true);
      }
      Send([request]);
      if changed {
        start := env.now;
        Send([TimersChanged]);
      }
    }

    method HandleCloudShadowResponse(delta: bool, decoded: Option<Shadow>, inBufferMode: bool, env: Env)
      modifies this`sample, this`update, this`start, this`outbox
      ensures State() == match decoded
                         case None => old(State())
                         case Some(shadow) => HandleShadow(old(State()), delta, shadow, inBufferMode, env)
    {
      if decoded.None? {
        return;
      }
      var shadow := decoded.value;
      ConfigApply(shadow.params, env);
      var config := shadow.params.(sample := sample, update := update);
      if !config.bufferModeValid {
        config := config.(bufferMode := inBufferMode, bufferModeValid := true);
      }
      if delta {
        ghost var before := outbox;
        Send([Reported(config, shadow.commandType, shadow.commandId)]);
        if shadow.provision {
          Send([ProvisioningRequest]);
          assert outbox == before + ([Reported(config, shadow.commandType, shadow.commandId)] + [ProvisioningRequest]);
        }
      } else {
        Send([Reported(config, 0, 0)]);
      }
    }

    // ---- Run handlers: `stop` when the message is handled or the state has changed ----

    /** What a handler must do when it stops, and that it has left the state alone when it does not. */
    twostate predicate Ran(env: Env, stop: bool, when: bool)
      reads this
    {
      && (stop <==> when)
      && State() == if when then Step(old(State()), env) else old(State())
    }

    ghost predicate Ready(env: Env)
      reads this
    {
      ModeState(mode) && Owned(State()) && (ModeOf(current) == Update ==> HistoryOk(State()))
    }

    method RunningRun(env: Env) returns (stop: bool)
      requires Ready(env) && ModeOf(current) != Update
      modifies this
      ensures Ran(env, stop, env.msg == FotaEvent(DownloadingUpdate))
    {
      hide Transition, Path, HandleShadow, GoBuffer, GoPassthrough, Sample, Wait, StepShadow, StepUpdate;
      if env.msg == FotaEvent(DownloadingUpdate) {
        UpdateBegins(State(), mode, env);
        SetState(Running, Fota, env);
        return true;
      }
      return false;
    }

    method BufferModeRun(env: Env) returns (stop: bool)
      ensures stop <==> env.msg == LongPress
    {
      return env.msg.LongPress?;
    }

    method BufferDisconnectedRun(env: Env) returns (stop: bool)
      requires Ready(env) && ModeOf(current) == Buffer && !Connected(current)
      modifies this
      ensures Ran(env, stop, env.msg in {CloudConnected, CloudExpired, StoragePassthrough})
    {
      hide Transition, Path, Step, GoBuffer, GoPassthrough;
      DisconnectedSteps(State(), env);
      match env.msg {
        case CloudConnected =>
          BufferReconnects(State(), true, mode, env);
          SetState(BufferDisconnected, BufferConnected, env);
          return true;
        case CloudExpired =>
          TimerSendDataStart(update, env.now);
          return true;
        case StoragePassthrough =>
          BufferToPassthrough(State(), false, mode, env);
          SetState(BufferDisconnected, PassthroughDisconnected, env);
          return true;
        case _ =>
          return false;
      }
    }

    /** A shadow response is acted on and then goes on to the ancestors, which ignore it. */
    method BufferConnectedRun(env: Env) returns (stop: bool)
      requires Ready(env) && ModeOf(current) == Buffer && Connected(current)
      requires env.msg in {CloudExpired, LongPress} ==> !Waiting(current)
      modifies this
      ensures env.msg.ShadowResponse? ==>
                !stop && State() == Step(old(State()), env) && Ready(env) && current == old(current)
      ensures !env.msg.ShadowResponse? ==>
                Ran(env, stop,
                    env.msg in {CloudDisconnected, EmptyDesired, CloudExpired, LongPress, StoragePassthrough})
    {
      hide Transition, Path;
      match env.msg {
        case CloudDisconnected =>
          BufferReconnects(State(), false, mode, env);
          SetState(BufferConnected, BufferDisconnected, env);
          return true;
        case ShadowResponse(delta, decoded) =>
          HandleCloudShadowResponse(delta, decoded, true, env);
          return false;
        case EmptyDesired =>
          Send([Reported(Params(sample, update, true, true), 0, 0)]);
          return true;
        case CloudExpired =>
          CloudSendNow(env);
          return true;
        case LongPress =>
          CloudSendNow(env);
          return true;
        case StoragePassthrough =>
          BufferToPassthrough(State(), true, mode, env);
          SetState(BufferConnected, PassthroughConnected, env);
          return true;
        case _ =>
          return false;
      }
    }

    method BufferDisconnectedSamplingRun(env: Env) returns (stop: bool)
      requires Ready(env) && current == BufferDisconnectedSampling
      modifies this
      ensures Ran(env, stop, env.msg in {SearchDone, ShortPress})
    {
      hide Transition, Path, HandleShadow, GoBuffer, GoPassthrough, StepShadow, StepUpdate, StepPassthrough, Poll,
          RequestBatch, Wait, Sample;
      if env.msg.SearchDone? {
        Send([SensorRequests]);
        BufferWaits(State(), false, mode, env);
        SetState(current, BufferDisconnectedWaiting, env);
        return true;
      }
      return env.msg.ShortPress?;
    }

    method BufferDisconnectedWaitingRun(env: Env) returns (stop: bool)
      requires Ready(env) && current == BufferDisconnectedWaiting
      modifies this
      ensures Ran(env, stop, env.msg in {SampleExpired, ConfigChanged, ShortPress, LongPress})
    {
      hide Transition, Path, HandleShadow, GoBuffer, GoPassthrough, StepShadow, StepUpdate, StepPassthrough, Poll,
          RequestBatch, Wait, Sample;
      match env.msg {
        case SampleExpired =>
          BufferSamples(State(), false, mode, env);
          SetState(current, BufferDisconnectedSampling, env);
          return true;
        case ConfigChanged =>
          WaitsAgain(State(), mode, env);
          SetState(current, BufferDisconnectedWaiting, env);
          return true;
        case ShortPress =>
          BufferSamples(State(), false, mode, env);
          SetState(current, BufferDisconnectedSampling, env);
          return true;
        case LongPress =>
          return true;
        case _ =>
          return false;
      }
    }

    method BufferConnectedSamplingRun(env: Env) returns (stop: bool)
      requires Ready(env) && current == BufferConnectedSampling
      modifies this
      ensures Ran(env, stop, env.msg in {SearchDone, ShortPress, CloudExpired})
    {
      RestartAnyTime(State(), env);
      hide Transition, Path, HandleShadow, GoBuffer, GoPassthrough, StepShadow, StepUpdate, StepPassthrough, Poll,
          RequestBatch;
      match env.msg {
        case SearchDone =>
          Send([SensorRequests]);
          BufferWaits(State(), true, mode, env);
          SetState(current, BufferConnectedWaiting, env);
          return true;
        case ShortPress =>
          return true;
        case CloudExpired =>
          TimerSendDataStart(update, env.now);
          StorageSendData(env);
          PollTriggersSend();
          return true;
        case _ =>
          return false;
      }
    }

    method BufferConnectedWaitingRun(env: Env) returns (stop: bool)
      requires Ready(env) && current == BufferConnectedWaiting
      modifies this
      ensures Ran(env, stop, env.msg in {SampleExpired, CloudExpired, ConfigChanged, ShortPress, LongPress})
    {
      hide Transition, Path, HandleShadow, GoBuffer, GoPassthrough, StepShadow, StepUpdate, StepPassthrough, Poll,
          RequestBatch, Wait, Sample, BeginSampling, Resume, Owned, HistoryOk;
      match env.msg {
        case SampleExpired =>
          BufferSamples(State(), true, mode, env);
          SetState(current, BufferConnectedSampling, env);
          return true;
        case CloudExpired =>
          StorageSendData(env);
          PollTriggersSend();
          TimerSendDataStart(update, env.now);
          return true;
        case ConfigChanged =>
          WaitsAgain(State(), mode, env);
          SetState(current, BufferConnectedWaiting, env);
          return true;
        case ShortPress =>
          BufferSamples(State(), true, mode, env);
          SetState(current, BufferConnectedSampling, env);
          return true;
        case LongPress =>
          StorageSendData(env);
          PollTriggersSend();
          return true;
        case _ =>
          return false;
      }
    }

    method PassthroughModeRun(env: Env) returns (stop: bool)
      requires Ready(env) && ModeOf(current) == Passthrough
      modifies this
      ensures Ran(env, stop, env.msg in {CloudConnected, CloudDisconnected})
    {
      hide Transition, Path;
      match env.msg {
        case CloudDisconnected =>
          PassthroughReconnects(State(), PassthroughMode, false, mode, env);
          SetState(PassthroughMode, PassthroughDisconnected, env);
          return true;
        case CloudConnected =>
          PassthroughReconnects(State(), PassthroughMode, true, mode, env);
          SetState(PassthroughMode, PassthroughConnectedSampling, env);
          return true;
        case _ =>
          return false;
      }
    }

    method PassthroughDisconnectedRun(env: Env) returns (stop: bool)
      requires Ready(env) && current == PassthroughDisconnected
      modifies this
      ensures Ran(env, stop, env.msg in {CloudConnected, StorageBuffer})
    {
      hide Transition, Path, HandleShadow, GoBuffer, GoPassthrough, StepShadow, StepUpdate, StepBuffer, Wait;
      match env.msg {
        case CloudConnected =>
          PassthroughReconnects(State(), PassthroughDisconnected, true, mode, env);
          SetState(PassthroughDisconnected, PassthroughConnectedSampling, env);
          return true;
        case StorageBuffer =>
          PassthroughToBuffer(State(), false, mode, env);
          SetState(PassthroughDisconnected, BufferDisconnected, env);
          return true;
        case _ =>
          return false;
      }
    }

    /** Every message of STORAGE_CHAN ends here. */
    method PassthroughConnectedRun(env: Env) returns (stop: bool)
      requires Ready(env) && ModeOf(current) == Passthrough && Connected(current)
      modifies this
      ensures Ran(env, stop, env.msg.ShadowResponse? || env.msg.EmptyDesired? || IsStorage(env.msg))
    {
      hide Transition, Path;
      match env.msg {
        case ShadowResponse(delta, decoded) =>
          HandleCloudShadowResponse(delta, decoded, false, env);
          return true;
        case EmptyDesired =>
          Send([Reported(Params(sample, update, false, true), 0, 0)]);
          return true;
        case StorageBuffer =>
          PassthroughToBuffer(State(), true, mode, env);
          SetState(PassthroughConnected, BufferConnected, env);
          return true;
        case StoragePassthrough =>
          return true;
        case StorageOther =>
          return true;
        case _ =>
          return false;
      }
    }

    method PassthroughConnectedSamplingRun(env: Env) returns (stop: bool)
      requires Ready(env) && current == PassthroughConnectedSampling
      modifies this
      ensures Ran(env, stop, env.msg in {SearchDone, ShortPress})
    {
      hide Transition, Path, HandleShadow, GoBuffer, GoPassthrough, StepShadow, StepUpdate, StepBuffer, Wait;
      if env.msg.SearchDone? {
        Send([SensorRequests]);
        PollTriggersSend();
        PassthroughMoves(State(), PassthroughConnectedWaiting, mode, env);
        SetState(current, PassthroughConnectedWaiting, env);
        return true;
      }
      return env.msg.ShortPress?;
    }

    method PassthroughConnectedWaitingRun(env: Env) returns (stop: bool)
      requires Ready(env) && current == PassthroughConnectedWaiting
      modifies this
      ensures Ran(env, stop, env.msg in {SampleExpired, ConfigChanged, ShortPress, LongPress})
    {
      hide Transition, Path, HandleShadow, GoBuffer, GoPassthrough, StepShadow, StepUpdate, StepBuffer, Wait;
      match env.msg {
        case SampleExpired =>
          PassthroughMoves(State(), PassthroughConnectedSampling, mode, env);
          SetState(current, PassthroughConnectedSampling, env);
          return true;
        case ConfigChanged =>
          WaitsAgain(State(), mode, env);
          SetState(current, PassthroughConnectedWaiting, env);
          return true;
        case ShortPress =>
          PassthroughMoves(State(), PassthroughConnectedSampling, mode, env);
          SetState(current, PassthroughConnectedSampling, env);
          return true;
        case LongPress =>
          PollTriggersSend();
          return true;
        case _ =>
          return false;
      }
    }

    /** The leaf of an update; FOTA_REBOOTING has no run handler. */
    method UpdateLeafRun(env: Env) returns (stop: bool)
      requires Ready(env) && ModeOf(current) == Update && current != FotaRebooting
      modifies this
      ensures Ran(env, stop, UpdateLeafActs(old(current), env.msg))
    {
      hide Step, Entry;
      if UpdateLeafActs(current, env.msg) {
        UpdateActs(State(), env);
      }
      match (current, env.msg) {
        case (FotaDownloading, FotaEvent(SuccessRebootNeeded)) =>
          stop := MoveWithinUpdate(FotaWaitingForDisconnect, env);
        case (FotaDownloading, FotaEvent(ImageApplyNeeded)) =>
          stop := MoveWithinUpdate(FotaWaitingForDisconnectToApply, env);
        case (FotaWaitingForDisconnect, NetworkDisconnected) =>
          stop := MoveWithinUpdate(FotaRebooting, env);
        case (FotaWaitingForDisconnectToApply, NetworkDisconnected) =>
          stop := MoveWithinUpdate(FotaApplyingImage, env);
        case (FotaApplyingImage, FotaEvent(SuccessRebootNeeded)) =>
          stop := MoveWithinUpdate(FotaRebooting, env);
        case _ =>
          return false;
      }
    }

    method MoveWithinUpdate(target: State, env: Env) returns (stop: bool)
      requires Ready(env) && ModeOf(current) == Update && ModeOf(target) == Update
      requires IsLeaf(target) && target != current
      modifies this
      ensures stop && State() == Entry(target, old(State()).(leaf := target), env)
    {
      hide Transition, Path;
      UpdateMoves(State(), target, mode, env);
      SetState(current, target, env);
      return true;
    }

    /** `fota_run`: connectivity is remembered, and a stopped download resumes what the history says. */
    method FotaRun(env: Env) returns (stop: bool)
      requires Ready(env) && ModeOf(current) == Update && current != FotaRebooting
      requires !UpdateLeafActs(current, env.msg)
      modifies this
      ensures stop <==> env.msg.FotaEvent? && Stops(env.msg.fota)
      ensures State() == Step(old(State()), env)
    {
      hide Transition, Path, Resume, StepBuffer, StepPassthrough;
      var resume := history;
      if env.msg.FotaEvent? && Stops(env.msg.fota) {
        UpdateResumes(State(), mode, env);
        SetState(Fota, resume, env);
        return true;
      }
      if env.msg.CloudDisconnected? {
        match resume {
          case PassthroughConnectedSampling => history := PassthroughDisconnected;
          case BufferConnected => history := BufferDisconnected;
          case _ =>
        }
      } else if env.msg.CloudConnected? {
        match resume {
          case BufferDisconnected => history := BufferConnected;
          case PassthroughDisconnected => history := PassthroughConnectedSampling;
          case _ =>
        }
      }
      return false;
    }

    // ---- Dispatch ----

    method BufferPass(env: Env)
      requires Ready(env) && ModeOf(current) == Buffer
      modifies this
      ensures State() == Step(old(State()), env)
    {
      var stop;
      hide HandleShadow, GoBuffer, GoPassthrough, Poll, RequestBatch, Wait, Sample, Stopped;
      match current {
        case BufferDisconnectedSampling =>
          stop := BufferDisconnectedSamplingRun(env);
        case BufferDisconnectedWaiting =>
          stop := BufferDisconnectedWaitingRun(env);
        case BufferConnectedSampling =>
          stop := BufferConnectedSamplingRun(env);
        case BufferConnectedWaiting =>
          stop := BufferConnectedWaitingRun(env);
      }
      if stop {
        return;
      }
      if Connected(current) {
        stop := BufferConnectedRun(env);
      } else {
        stop := BufferDisconnectedRun(env);
      }
      if stop {
        return;
      }
      stop := BufferModeRun(env);
      if !stop {
        stop := RunningRun(env);
      }
    }

    method PassthroughPass(env: Env)
      requires Ready(env) && ModeOf(current) == Passthrough
      modifies this
      ensures State() == Step(old(State()), env)
    {
      var stop;
      hide HandleShadow, GoBuffer, GoPassthrough, Poll, Wait, SamplePassthrough, Stopped;
      match current {
        case PassthroughDisconnected =>
          stop := PassthroughDisconnectedRun(env);
        case PassthroughConnectedSampling =>
          stop := PassthroughConnectedSamplingRun(env);
        case PassthroughConnectedWaiting =>
          stop := PassthroughConnectedWaitingRun(env);
      }
      if !stop && Connected(current) {
        stop := PassthroughConnectedRun(env);
      }
      if !stop {
        stop := PassthroughModeRun(env);
      }
      if !stop {
        stop := RunningRun(env);
      }
    }

    /** `smf_run_state`: the leaf's handler, then its ancestors', until one stops. The whole pass does what
        the flat table says. */
    method Process(env: Env)
      requires Ready(env) && current != FotaRebooting
      modifies this
      ensures State() == Step(old(State()), env)
    {
      var stop;
      match ModeOf(current) {
        case Buffer =>
          BufferPass(env);
        case Passthrough =>
          PassthroughPass(env);
        case Update =>
          stop := UpdateLeafRun(env);
          if !stop {
            stop := FotaRun(env);
          }
      }
    }
  }

  /** Restarting the send timer commutes with sending. */
  lemma RestartAnyTime(v: View, env: Env)
    ensures Poll(RequestBatch(RestartSend(v, env), env)) == RestartSend(Poll(RequestBatch(v, env)), env)
  {
  }

  /** The messages on which a leaf of the update machine acts. */
  predicate UpdateLeafActs(leaf: State, msg: Msg) {
    match leaf
    case FotaDownloading => msg == FotaEvent(SuccessRebootNeeded) || msg == FotaEvent(ImageApplyNeeded)
    case FotaWaitingForDisconnect => msg == NetworkDisconnected
    case FotaWaitingForDisconnectToApply => msg == NetworkDisconnected
    case FotaApplyingImage => msg == FotaEvent(SuccessRebootNeeded)
    case _ => false
  }

  /** Where those messages lead. */
  function UpdateTarget(leaf: State, msg: Msg): State
    requires UpdateLeafActs(leaf, msg)
  {
    match leaf
    case FotaDownloading =>
      if msg == FotaEvent(SuccessRebootNeeded) then FotaWaitingForDisconnect else FotaWaitingForDisconnectToApply
    case FotaWaitingForDisconnectToApply => FotaApplyingImage
    case _ => FotaRebooting
  }

  lemma UpdateActs(v: View, env: Env)
    requires UpdateLeafActs(v.leaf, env.msg)
    ensures var target := UpdateTarget(v.leaf, env.msg);
            Step(v, env) == Entry(target, v.(leaf := target), env)
  {
  }

  /** Only the entry of a sampling state may go on to another state. */
  function Rank(s: State): nat {
    if s == BufferDisconnectedSampling || s == BufferConnectedSampling then 1 else 0
  }

  lemma PathEndsInLeaf(leaf: State)
    requires IsLeaf(leaf)
    ensures forall i :: 0 <= i < |Path(leaf)| - 1 ==> !IsLeaf(Path(leaf)[i]) && Rank(Path(leaf)[i]) == 0
  {
  }

  lemma NextEntry(path: seq<State>, j: nat, v: View, env: Env)
    requires j <= |path|
    ensures Entries(path[j..], v, env) == if j == |path| then v else Entries(path[j + 1..], Entry(path[j], v, env), env)
  {
    hide Entry;
    assert j < |path| ==> path[j..][1..] == path[j + 1..];
  }

  lemma DisconnectedSteps(v: View, env: Env)
    requires ModeOf(v.leaf) == Buffer && !Connected(v.leaf)
    ensures match env.msg
            case CloudConnected => Step(v, env) == GoBuffer(v, true, false, env)
            case CloudExpired => Step(v, env) == RestartSend(v, env)
            case StoragePassthrough => Step(v, env) == GoPassthrough(v, false, true, env)
            case _ => true
  {
    hide GoBuffer, GoPassthrough;
  }

  lemma EntryKeepsLeaf(s: State, v: View, env: Env)
    ensures !IsLeaf(s) ==> Entry(s, v, env).leaf == v.leaf
  {
  }

  lemma InitialEntries(mode: State, sample: UInt32, update: UInt32, now: nat, ms: UInt32)
    requires ModeState(mode)
    ensures var v := View(LeafOf(Running, mode), Running, 0, sample, update, false, 0, None, None, []);
            Entries(Path(v.leaf), v, Env(LocationOther, now, ms)) == Initial(mode, sample, update, now, ms)
  {
    var v := View(LeafOf(Running, mode), Running, 0, sample, update, false, 0, None, None, []);
    EntriesOf(Path(v.leaf), v, Env(LocationOther, now, ms));
    hide Entries;
  }
}
