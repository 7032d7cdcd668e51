/** The application state machine: its chart, its actions, and one flat table of what each message does. */
module MainSpec {
  import opened Common
  import Smf

  datatype State =
    | Running
    | BufferMode
    | BufferDisconnected
    | BufferDisconnectedSampling
    | BufferDisconnectedWaiting
    | BufferConnected
    | BufferConnectedSampling
    | BufferConnectedWaiting
    | PassthroughMode
    | PassthroughDisconnected
    | PassthroughConnected
    | PassthroughConnectedSampling
    | PassthroughConnectedWaiting
    | Fota
    | FotaDownloading
    | FotaWaitingForDisconnect
    | FotaWaitingForDisconnectToApply
    | FotaApplyingImage
    | FotaRebooting

  /** The ancestors of a state, root first, and the state itself. */
  function Path(s: State): (path: seq<State>)
    ensures |path| > 0 && path[|path| - 1] == s
  {
    match s
    case Running => [Running]
    case BufferMode => [Running, BufferMode]
    case BufferDisconnected => [Running, BufferMode, BufferDisconnected]
    case BufferDisconnectedSampling => [Running, BufferMode, BufferDisconnected, BufferDisconnectedSampling]
    case BufferDisconnectedWaiting => [Running, BufferMode, BufferDisconnected, BufferDisconnectedWaiting]
    case BufferConnected => [Running, BufferMode, BufferConnected]
    case BufferConnectedSampling => [Running, BufferMode, BufferConnected, BufferConnectedSampling]
    case BufferConnectedWaiting => [Running, BufferMode, BufferConnected, BufferConnectedWaiting]
    case PassthroughMode => [Running, PassthroughMode]
    case PassthroughDisconnected => [Running, PassthroughMode, PassthroughDisconnected]
    case PassthroughConnected => [Running, PassthroughMode, PassthroughConnected]
    case PassthroughConnectedSampling => [Running, PassthroughMode, PassthroughConnected, PassthroughConnectedSampling]
    case PassthroughConnectedWaiting => [Running, PassthroughMode, PassthroughConnected, PassthroughConnectedWaiting]
    case Fota => [Fota]
    case FotaDownloading => [Fota, FotaDownloading]
    case FotaWaitingForDisconnect => [Fota, FotaWaitingForDisconnect]
    case FotaWaitingForDisconnectToApply => [Fota, FotaWaitingForDisconnectToApply]
    case FotaApplyingImage => [Fota, FotaApplyingImage]
    case FotaRebooting => [Fota, FotaRebooting]
  }

  /** Where the initial transitions below a state end; `mode` is INITIAL_MODE. */
  function LeafOf(s: State, mode: State): (leaf: State)
    requires mode == BufferMode || mode == PassthroughMode
    ensures IsLeaf(leaf)
    ensures Path(s) <= Path(leaf)
  {
    match s
    case Running => if mode == BufferMode then BufferDisconnectedSampling else PassthroughDisconnected
    case BufferMode => BufferDisconnectedSampling
    case BufferDisconnected => BufferDisconnectedSampling
    case BufferConnected => BufferConnectedSampling
    case PassthroughMode => PassthroughDisconnected
    case PassthroughConnected => PassthroughConnectedSampling
    case Fota => FotaDownloading
    case _ => s
  }

  predicate IsLeaf(s: State) {
    s != Running && s != BufferMode && s != BufferDisconnected && s != BufferConnected && s != PassthroughMode
    && s != PassthroughConnected && s != Fota
  }

  // ---- Messages ----

  datatype FotaMsg =
    | DownloadFailed
    | DownloadTimedOut
    | DownloadingUpdate
    | NoAvailableUpdate
    | SuccessRebootNeeded
    | ImageApplyNeeded
    | DownloadCanceled
    | DownloadRejected
    | PollRequest
    | ImageApply
    | DownloadCancel

  predicate Stops(msg: FotaMsg) {
    msg == DownloadCanceled || msg == DownloadRejected || msg == DownloadTimedOut || msg == DownloadFailed
  }

  /** `struct config_params`; a zero interval means that the shadow does not set it. */
  datatype Params = Params(sample: UInt32, update: UInt32, bufferMode: bool, bufferModeValid: bool)

  /** A decoded shadow; `provision` says whether its command is CLOUD_COMMAND_TYPE_PROVISION. */
  datatype Shadow = Shadow(params: Params, provision: bool, commandType: UInt32, commandId: UInt32)

  /** What the subscriber receives, grouped by channel. `decoded` is `None` if decoding fails. */
  datatype Msg =
    | CloudConnected
    | CloudDisconnected
    | ShadowResponse(delta: bool, decoded: Option<Shadow>)
    | EmptyDesired
    | CloudOther
    | ShortPress
    | LongPress
    | FotaEvent(fota: FotaMsg)
    | NetworkDisconnected
    | NetworkOther
    | SearchDone
    | LocationOther
    | StoragePassthrough
    | StorageBuffer
    | StorageOther
    | SampleExpired
    | CloudExpired
    | ConfigChanged

  predicate IsButton(msg: Msg) {
    msg.ShortPress? || msg.LongPress?
  }

  predicate IsStorage(msg: Msg) {
    msg.StoragePassthrough? || msg.StorageBuffer? || msg.StorageOther?
  }

  /** What the module publishes, in order; `Reboot` is the call of sys_reboot. */
  datatype Out =
    | SearchTrigger
    | SensorRequests
    | FotaPoll
    | GetDesired
    | GetDelta
    | BatchRequest(id: UInt32)
    | ModeRequest(buffer: bool)
    | TimersChanged
    | Reported(params: Params, commandType: UInt32, commandId: UInt32)
    | ProvisioningRequest
    | DisconnectNetwork
    | ApplyImage
    | ClearStorage
    | Reboot

  /** The state object, the two timers with the uptime at which they expire, and everything published. */
  datatype View = View(
    leaf: State,
    history: State,
    start: nat,
    sample: UInt32,
    update: UInt32,
    polled: bool,
    session: UInt32,
    sampleTimer: Option<nat>,
    sendTimer: Option<nat>,
    outs: seq<Out>)

  /** The message being handled, and the uptime in seconds and, truncated to 32 bits, in milliseconds. */
  datatype Env = Env(msg: Msg, now: nat, ms: UInt32)

  function Publish(v: View, outs: seq<Out>): View {
    v.(outs := v.outs + outs)
  }

  // ---- Entry and exit actions ----

  /** `waiting_entry_common`: the timer ends the interval that began with the last sampling, or expires at
      once if that is over. */
  function Wait(v: View, interval: UInt32, now: nat): View {
    v.(sampleTimer := Some(Max(now, v.start + interval)))
  }

  predicate TooSoon(v: View, env: Env) {
    v.start > 0 && env.now - v.start < v.sample && !IsButton(env.msg)
  }

  function PollShadowOnce(v: View): View {
    if v.polled then v else Publish(v, [GetDesired]).(polled := true)
  }

  /** `sampling_begin_common`; if it is too soon the entry action itself goes on to the waiting state. */
  function BeginSampling(v: View, env: Env, waiting: State): View {
    if TooSoon(v, env) then Wait(v.(leaf := waiting), v.sample, env.now)
    else Publish(v, [SearchTrigger]).(start := env.now)
  }

  function Entry(s: State, v: View, env: Env): View {
    match s
    case BufferMode => v.(start := 0, sendTimer := Some(env.now + v.update))
    case BufferDisconnected => v.(history := BufferDisconnected)
    case BufferConnected => PollShadowOnce(v.(history := BufferConnected))
    case BufferDisconnectedSampling => BeginSampling(v, env, BufferDisconnectedWaiting)
    case BufferConnectedSampling => BeginSampling(v, env, BufferConnectedWaiting)
    case BufferDisconnectedWaiting => Wait(v, v.sample, env.now)
    case BufferConnectedWaiting => Wait(v, v.sample, env.now)
    case PassthroughMode => v.(start := 0, sampleTimer := None, sendTimer := None)
    case PassthroughDisconnected => v.(history := PassthroughDisconnected, sampleTimer := None)
    case PassthroughConnected => PollShadowOnce(v.(history := PassthroughConnected))
    case PassthroughConnectedSampling =>
      Publish(v.(history := PassthroughConnectedSampling, start := env.now), [SearchTrigger])
    case PassthroughConnectedWaiting => Wait(v, v.update, env.now)
    case Fota => v.(sampleTimer := None, sendTimer := None)
    case FotaWaitingForDisconnect => Publish(v, [DisconnectNetwork])
    case FotaWaitingForDisconnectToApply => Publish(v, [DisconnectNetwork]).(sampleTimer := None, sendTimer := None)
    case FotaApplyingImage => Publish(v, [ApplyImage])
    case FotaRebooting => Publish(v, [ClearStorage, Reboot])
    case _ => v
  }

  function Exit(s: State, v: View): View {
    match s
    case BufferMode => v.(sampleTimer := None, sendTimer := None)
    case PassthroughMode => v.(sampleTimer := None)
    case BufferDisconnectedWaiting => v.(sampleTimer := None)
    case BufferConnectedWaiting => v.(sampleTimer := None)
    case PassthroughConnectedWaiting => v.(sampleTimer := None)
    case _ => v
  }

  function Entries(states: seq<State>, v: View, env: Env): View {
    if states == [] then v else Entries(states[1..], Entry(states[0], v, env), env)
  }

  /** Leaf first. */
  function Exits(states: seq<State>, v: View): View {
    if states == [] then v else Exits(states[..|states| - 1], Exit(states[|states| - 1], v))
  }

  /** `smf_set_state` called from a handler of `executing`, the leaf or one of its ancestors. */
  function Transition(v: View, executing: State, target: State, mode: State, env: Env): View
    requires mode == BufferMode || mode == PassthroughMode
    requires Path(executing) <= Path(v.leaf)
  {
    var top, leaf := Smf.Top(Path(executing), Path(target)), LeafOf(target, mode);
    Entries(Path(leaf)[top..], Exits(Path(v.leaf)[top..], v).(leaf := leaf), env)
  }

  // ---- The flat table ----

  datatype Mode = Buffer | Passthrough | Update

  function ModeOf(leaf: State): Mode {
    match leaf
    case BufferDisconnectedSampling => Buffer
    case BufferDisconnectedWaiting => Buffer
    case BufferConnectedSampling => Buffer
    case BufferConnectedWaiting => Buffer
    case PassthroughDisconnected => Passthrough
    case PassthroughConnectedSampling => Passthrough
    case PassthroughConnectedWaiting => Passthrough
    case _ => Update
  }

  predicate Waiting(leaf: State) {
    leaf == BufferDisconnectedWaiting || leaf == BufferConnectedWaiting || leaf == PassthroughConnectedWaiting
  }

  predicate Connected(leaf: State) {
    leaf == BufferConnectedSampling || leaf == BufferConnectedWaiting
    || leaf == PassthroughConnectedSampling || leaf == PassthroughConnectedWaiting
  }

  function Stopped(v: View): View {
    v.(sampleTimer := None, sendTimer := None)
  }

  /** Buffer mode begins to sample, or to wait out the interval. */
  function Sample(v: View, connected: bool, env: Env): View {
    var sampling := if connected then BufferConnectedSampling else BufferDisconnectedSampling;
    BeginSampling(v.(leaf := sampling, sampleTimer := None),
                  env, if connected then BufferConnectedWaiting else BufferDisconnectedWaiting)
  }

  /** Buffer mode with the given connectivity; `entering` when it comes from another mode. */
  function GoBuffer(v: View, connected: bool, entering: bool, env: Env): View {
    var v1 := if entering then v.(start := 0, sendTimer := Some(env.now + v.update)) else v;
    var v2 := v1.(history := if connected then BufferConnected else BufferDisconnected);
    Sample(if connected then PollShadowOnce(v2) else v2, connected, env)
  }

  function SamplePassthrough(v: View, env: Env): View {
    Publish(v.(leaf := PassthroughConnectedSampling, history := PassthroughConnectedSampling,
               start := env.now, sampleTimer := None), [SearchTrigger])
  }

  function GoPassthrough(v: View, connected: bool, entering: bool, env: Env): View {
    var v1 := if entering then Stopped(v).(start := 0) else v;
    if connected then SamplePassthrough(PollShadowOnce(v1), env)
    else v1.(leaf := PassthroughDisconnected, history := PassthroughDisconnected, sampleTimer := None)
  }

  /** Leaving an update: back to the mode and the connectivity that the history holds. */
  function Resume(v: View, env: Env): View {
    match v.history
    case BufferDisconnected => GoBuffer(v, false, true, env)
    case BufferConnected => GoBuffer(v, true, true, env)
    case PassthroughDisconnected => GoPassthrough(v, false, true, env)
    case PassthroughConnectedSampling => GoPassthrough(v, true, true, env)
    case _ => v
  }

  function Poll(v: View): View {
    Publish(v, [FotaPoll, GetDelta])
  }

  function RequestBatch(v: View, env: Env): View {
    Publish(v, [BatchRequest(env.ms)]).(session := env.ms)
  }

  function RestartSend(v: View, env: Env): View {
    v.(sendTimer := Some(env.now + v.update))
  }

  /** `config_apply`: every effective shadow asks for a storage mode, passthrough unless it says buffer. */
  function ApplyParams(v: View, p: Params, env: Env): View {
    if p.sample == 0 && p.update == 0 && !p.bufferModeValid then v
    else
      var sample := if p.sample == 0 then v.sample else p.sample;
      var update := if p.update == 0 then v.update else p.update;
      var v1 := Publish(v.(sample := sample, update := update), [ModeRequest(p.bufferMode && p.bufferModeValid)]);
      if sample == v.sample && update == v.update then v1
      else Publish(v1, [TimersChanged]).(start := env.now)
  }

  function HandleShadow(v: View, delta: bool, shadow: Shadow, inBufferMode: bool, env: Env): View {
    var v1 := ApplyParams(v, shadow.params, env);
    var mode := if shadow.params.bufferModeValid then shadow.params.bufferMode else inBufferMode;
    var effective := Params(v1.sample, v1.update, mode, true);
    if !delta then Publish(v1, [Reported(effective, 0, 0)])
    else
      Publish(v1, [Reported(effective, shadow.commandType, shadow.commandId)]
                  + (if shadow.provision then [ProvisioningRequest] else []))
  }

  /** The rows common to both storage modes, with their connectivity. */
  function StepShadow(v: View, env: Env): View {
    var buffer := ModeOf(v.leaf) == Buffer;
    match env.msg
    case ShadowResponse(delta, Some(shadow)) => HandleShadow(v, delta, shadow, buffer, env)
    case EmptyDesired => Publish(v, [Reported(Params(v.sample, v.update, buffer, true), 0, 0)])
    case _ => v
  }

  function StepBuffer(v: View, env: Env): View {
    var connected := Connected(v.leaf);
    match env.msg
    case CloudConnected => if connected then v else GoBuffer(v, true, false, env)
    case CloudDisconnected => if connected then GoBuffer(v, false, false, env) else v
    case ShadowResponse(_, _) => if connected then StepShadow(v, env) else v
    case EmptyDesired => if connected then StepShadow(v, env) else v
    case StoragePassthrough => GoPassthrough(v, connected, true, env)
    case FotaEvent(DownloadingUpdate) => Stopped(v).(leaf := FotaDownloading)
    case SearchDone =>
      if Waiting(v.leaf) then v
      else
        var waiting := if connected then BufferConnectedWaiting else BufferDisconnectedWaiting;
        Wait(Publish(v, [SensorRequests]).(leaf := waiting), v.sample, env.now)
    case ShortPress => if Waiting(v.leaf) then Sample(v, connected, env) else v
    case SampleExpired => if Waiting(v.leaf) then Sample(v, connected, env) else v
    case ConfigChanged => if Waiting(v.leaf) then Wait(v, v.sample, env.now) else v
    case CloudExpired => RestartSend(if connected then Poll(RequestBatch(v, env)) else v, env)
    case LongPress =>
      if !connected then v
      else if Waiting(v.leaf) then Poll(RequestBatch(v, env))
      else RestartSend(Poll(RequestBatch(v, env)), env)
    case _ => v
  }

  function StepPassthrough(v: View, env: Env): View {
    var connected := Connected(v.leaf);
    match env.msg
    case CloudConnected => GoPassthrough(v, true, false, env)
    case CloudDisconnected => GoPassthrough(v, false, false, env)
    case ShadowResponse(_, _) => if connected then StepShadow(v, env) else v
    case EmptyDesired => if connected then StepShadow(v, env) else v
    case StorageBuffer => GoBuffer(v, connected, true, env)
    case FotaEvent(DownloadingUpdate) => Stopped(v).(leaf := FotaDownloading)
    case SearchDone =>
      if v.leaf != PassthroughConnectedSampling then v
      else Wait(Poll(Publish(v, [SensorRequests])).(leaf := PassthroughConnectedWaiting), v.update, env.now)
    case ShortPress => if Waiting(v.leaf) then SamplePassthrough(v, env) else v
    case SampleExpired => if Waiting(v.leaf) then SamplePassthrough(v, env) else v
    case ConfigChanged => if Waiting(v.leaf) then Wait(v, v.update, env.now) else v
    case LongPress => if Waiting(v.leaf) then Poll(v) else v
    case _ => v
  }

  /** Connectivity changes during an update are only remembered. */
  function Remember(history: State, connected: bool): State {
    match history
    case BufferDisconnected => if connected then BufferConnected else history
    case BufferConnected => if connected then history else BufferDisconnected
    case PassthroughDisconnected => if connected then PassthroughConnectedSampling else history
    case PassthroughConnectedSampling => if connected then history else PassthroughDisconnected
    case _ => history
  }

  function StepUpdate(v: View, env: Env): View {
    match (v.leaf, env.msg)
    case (FotaDownloading, FotaEvent(SuccessRebootNeeded)) =>
      Publish(v.(leaf := FotaWaitingForDisconnect), [DisconnectNetwork])
    case (FotaDownloading, FotaEvent(ImageApplyNeeded)) =>
      Publish(Stopped(v).(leaf := FotaWaitingForDisconnectToApply), [DisconnectNetwork])
    case (FotaWaitingForDisconnect, NetworkDisconnected) =>
      Publish(v.(leaf := FotaRebooting), [ClearStorage, Reboot])
    case (FotaWaitingForDisconnectToApply, NetworkDisconnected) =>
      Publish(v.(leaf := FotaApplyingImage), [ApplyImage])
    case (FotaApplyingImage, FotaEvent(SuccessRebootNeeded)) =>
      Publish(v.(leaf := FotaRebooting), [ClearStorage, Reboot])
    case (_, FotaEvent(msg)) => if Stops(msg) then Resume(v, env) else v
    case (_, CloudConnected) => v.(history := Remember(v.history, true))
    case (_, CloudDisconnected) => v.(history := Remember(v.history, false))
    case _ => v
  }

  /** One message. The machine stops in its entry to FotaRebooting. */
  function Step(v: View, env: Env): View {
    match ModeOf(v.leaf)
    case Buffer => StepBuffer(v, env)
    case Passthrough => StepPassthrough(v, env)
    case Update => if v.leaf == FotaRebooting then v else StepUpdate(v, env)
  }

  /** The histories from which an update can resume. */
  ghost predicate HistoryOk(v: View) {
    v.history == BufferDisconnected || v.history == BufferConnected
    || v.history == PassthroughDisconnected || v.history == PassthroughConnectedSampling
  }

  /** What start-up leaves behind; `mode` is INITIAL_MODE. */
  function Initial(mode: State, sample: UInt32, update: UInt32, now: nat, ms: UInt32): View
  {
    var v := View(Running, Running, 0, sample, update, false, 0, None, None, []);
    var env := Env(LocationOther, now, ms);
    if mode == BufferMode then GoBuffer(v, false, true, env) else GoPassthrough(v, false, true, env)
  }
}
