/** The application as its users know it, whole: one small machine over mode, connectivity and update stage says
    when it searches, what its timers hold, and everything it publishes, in order. */
module MainDevice {
  import opened Common
  import opened MainSpec
  import opened MainRuns
  import opened MainTransitions

  /** Nineteen states in a summary and whether a location search is going on; `wait` and `send` are the timers. */
  datatype Device = Device(
    summary: Summary,
    searching: bool,
    start: nat,
    sample: UInt32,
    update: UInt32,
    polled: bool,
    session: UInt32,
    wait: Option<nat>,
    send: Option<nat>)

  predicate Searching(leaf: State) {
    leaf == BufferDisconnectedSampling || leaf == BufferConnectedSampling || leaf == PassthroughConnectedSampling
  }

  function Watch(v: View): Device {
    Device(Summarize(v), Searching(v.leaf), v.start, v.sample, v.update, v.polled, v.session, v.sampleTimer,
           v.sendTimer)
  }

  /** It samples: in buffer mode always, in passthrough mode while connected, never during an update. */
  predicate Active(s: Summary) {
    s.stage == NoUpdate && (s.mode == Buffer || s.connected)
  }

  predicate Online(s: Summary) {
    s.stage == NoUpdate && s.connected
  }

  predicate WaitingIn(d: Device) {
    Active(d.summary) && !d.searching
  }

  /** A storage mode begins: the mode changes, or an update is given up. */
  predicate Enters(from: Summary, to: Summary) {
    to.stage == NoUpdate && (from.stage != NoUpdate || from.mode != to.mode)
  }

  // ---- Shadows ----

  /** The shadow that is acted on: one that decodes, while connected and outside updates. */
  function Accepted(s: Summary, msg: Msg): Option<Shadow> {
    match msg
    case ShadowResponse(_, Some(shadow)) => if Online(s) then Some(shadow) else None
    case _ => None
  }

  predicate Effective(p: Params) {
    p.sample != 0 || p.update != 0 || p.bufferModeValid
  }

  /** A shadow sets an interval by naming one. */
  function Settled(interval: UInt32, named: UInt32): UInt32 {
    if named != 0 then named else interval
  }

  function NextSample(d: Device, msg: Msg): UInt32 {
    var shadow := Accepted(d.summary, msg);
    if shadow.Some? then Settled(d.sample, shadow.value.params.sample) else d.sample
  }

  function NextUpdate(d: Device, msg: Msg): UInt32 {
    var shadow := Accepted(d.summary, msg);
    if shadow.Some? then Settled(d.update, shadow.value.params.update) else d.update
  }

  predicate Changes(d: Device, msg: Msg) {
    NextSample(d, msg) != d.sample || NextUpdate(d, msg) != d.update
  }

  // ---- Searches and timers ----

  /** A search begins with a storage mode; in passthrough mode also whenever the cloud says that it is connected,
      and at the end of a wait; in buffer mode whenever connectivity changes and at the end of a wait, but then
      not before the interval is over, unless a button asks. */
  predicate Begins(d: Device, env: Env) {
    var from, to := d.summary, Follow(d.summary, env.msg);
    var ends := WaitingIn(d) && (env.msg.ShortPress? || env.msg.SampleExpired?);
    && Active(to)
    && (|| Enters(from, to)
        || (to.mode == Passthrough && (env.msg.CloudConnected? || ends))
        || (to.mode == Buffer && (from.connected != to.connected || ends)
            && (d.start == 0 || env.now - d.start >= d.sample || env.msg.ShortPress?)))
  }

  predicate NextSearching(d: Device, env: Env) {
    Begins(d, env) || (d.searching && Follow(d.summary, env.msg) == d.summary && env.msg != SearchDone)
  }

  function NextStart(d: Device, env: Env): nat {
    if Begins(d, env) || Changes(d, env.msg) then env.now
    else if Enters(d.summary, Follow(d.summary, env.msg)) then 0 else d.start
  }

  /** The sample timer is set when a wait begins, or begins again, to what is left of the interval. */
  function NextWait(d: Device, env: Env): Option<nat> {
    var to := Follow(d.summary, env.msg);
    if !Active(to) || NextSearching(d, env) then None
    else if d.searching || to != d.summary || env.msg.SampleExpired? || env.msg.ConfigChanged? then
      Some(Max(env.now, NextStart(d, env) + if to.mode == Buffer then d.sample else d.update))
    else d.wait
  }

  /** The send timer runs in buffer mode only. It is set for the update interval when that mode begins, when it
      expires, and when a long press is handled while searching. */
  function NextSend(d: Device, env: Env): Option<nat> {
    var to := Follow(d.summary, env.msg);
    if to.stage != NoUpdate || to.mode != Buffer then None
    else if Enters(d.summary, to) || env.msg.CloudExpired? || (env.msg.LongPress? && to.connected && d.searching) then
      Some(env.now + d.update)
    else d.send
  }

  // ---- Publications ----

  /** In buffer mode records are sent when the send timer expires or on a long press, while connected. */
  predicate Sends(d: Device, msg: Msg) {
    Online(d.summary) && d.summary.mode == Buffer && (msg.CloudExpired? || msg.LongPress?)
  }

  /** The cloud is polled whenever records are sent; in passthrough mode when a search ends, and on a long press
      while waiting. */
  predicate Polls(d: Device, msg: Msg) {
    || Sends(d, msg)
    || (Online(d.summary) && d.summary.mode == Passthrough
        && if d.searching then msg == SearchDone else msg.LongPress?)
  }

  /** A shadow that sets anything asks for a storage mode, and for passthrough unless it validly says buffer. What
      is reported is what is in force; a command is answered to a delta only. */
  function Replies(d: Device, msg: Msg): seq<Out> {
    var shadow, mode := Accepted(d.summary, msg), d.summary.mode == Buffer;
    if shadow.Some? then
      var p, delta := shadow.value.params, msg.delta;
      var told := if p.bufferModeValid then p.bufferMode else mode;
      var inForce := Params(NextSample(d, msg), NextUpdate(d, msg), told, true);
      (if Effective(p) then [ModeRequest(p.bufferModeValid && p.bufferMode)] else [])
      + (if Changes(d, msg) then [TimersChanged] else [])
      + [Reported(inForce, if delta then shadow.value.commandType else 0, if delta then shadow.value.commandId else 0)]
      + (if delta && shadow.value.provision then [ProvisioningRequest] else [])
    else if msg == EmptyDesired && Online(d.summary) then [Reported(Params(d.sample, d.update, mode, true), 0, 0)]
    else []
  }

  /** What the next stage of an update begins with. */
  function Orders(from: Stage, to: Stage): seq<Out> {
    if from == to then []
    else
      match to
      case AwaitingReboot => [DisconnectNetwork]
      case AwaitingApply => [DisconnectNetwork]
      case Applying => [ApplyImage]
      case Rebooting => [ClearStorage, Reboot]
      case _ => []
  }

  /** Everything that one message makes it publish. The shadow is asked for once, when it first is online. */
  function Publishes(d: Device, env: Env): seq<Out> {
    var to := Follow(d.summary, env.msg);
    (if Online(to) && !d.polled then [GetDesired] else [])
    + (if Begins(d, env) then [SearchTrigger] else [])
    + (if d.searching && env.msg == SearchDone then [SensorRequests] else [])
    + (if Sends(d, env.msg) then [BatchRequest(env.ms)] else [])
    + (if Polls(d, env.msg) then [FotaPoll, GetDelta] else [])
    + Replies(d, env.msg)
    + Orders(d.summary.stage, to.stage)
  }

  function Next(d: Device, env: Env): Device {
    var to := Follow(d.summary, env.msg);
    Device(to, NextSearching(d, env), NextStart(d, env), NextSample(d, env.msg), NextUpdate(d, env.msg),
           d.polled || Online(to), if Sends(d, env.msg) then env.ms else d.session, NextWait(d, env), NextSend(d, env))
  }

  // ---- One message ----

  /** The shadow has been asked for by the time it is connected. */
  ghost predicate Ok(v: View) {
    Inv(v) && (Connected(v.leaf) ==> v.polled)
  }

  ghost predicate Shows(v: View, env: Env, w: View) {
    Watch(w) == Next(Watch(v), env) && w.outs == v.outs + Publishes(Watch(v), env)
  }

  /** Only shadows are replied to. */
  lemma NoReply(d: Device, msg: Msg)
    requires !msg.ShadowResponse? && !msg.EmptyDesired?
    ensures Replies(d, msg) == [] && !Changes(d, msg)
    ensures NextSample(d, msg) == d.sample && NextUpdate(d, msg) == d.update
  {
  }

  lemma Parts(outs: seq<Out>, a: seq<Out>, b: seq<Out>)
    ensures outs + [] == outs && [] + outs == outs && outs + a + b == outs + (a + b)
  {
  }

  /** A change of connectivity in buffer mode. */
  lemma Reconnecting(d: Device, env: Env)
    requires d.summary.stage == NoUpdate && d.summary.mode == Buffer
    requires (env.msg.CloudConnected? || env.msg.CloudDisconnected?) && d.summary.connected != env.msg.CloudConnected?
    ensures Follow(d.summary, env.msg) == d.summary.(connected := env.msg.CloudConnected?)
    ensures Publishes(d, env) == (if env.msg.CloudConnected? && !d.polled then [GetDesired] else [])
                                 + (if Begins(d, env) then [SearchTrigger] else [])
  {
    hide Begins, Replies, Changes, NextSample, NextUpdate;
    NoReply(d, env.msg);
  }

  /** A message that changes nothing about mode, connectivity or stage, and is no shadow. */
  lemma Standing(d: Device, env: Env)
    requires Follow(d.summary, env.msg) == d.summary && (Online(d.summary) ==> d.polled)
    requires !env.msg.ShadowResponse? && !env.msg.EmptyDesired?
    ensures Publishes(d, env) == if Begins(d, env) then [SearchTrigger]
                                 else (if d.searching && env.msg == SearchDone then [SensorRequests] else [])
                                      + (if Sends(d, env.msg) then [BatchRequest(env.ms)] else [])
                                      + (if Polls(d, env.msg) then [FotaPoll, GetDelta] else [])
  {
    hide Replies, Changes, NextSample, NextUpdate, Follow;
    NoReply(d, env.msg);
  }

  /** One on which neither a search begins nor a timer of sampling is set. */
  lemma Resting(d: Device, env: Env)
    requires Active(d.summary) && Follow(d.summary, env.msg) == d.summary && (Online(d.summary) ==> d.polled)
    requires !env.msg.ShadowResponse? && !env.msg.EmptyDesired? && !Begins(d, env)
    requires !env.msg.SearchDone? && !env.msg.SampleExpired? && !env.msg.ConfigChanged?
    requires (d.searching ==> d.wait == None) && (d.summary.mode != Buffer ==> d.send == None)
    ensures Next(d, env) == d.(session := if Sends(d, env.msg) then env.ms else d.session, send := NextSend(d, env))
  {
    hide Follow, Begins, NextSend, NextSample, NextUpdate, Changes;
    NoReply(d, env.msg);
  }

  /** One during an update that does not end it. */
  lemma Staging(d: Device, env: Env)
    requires d.summary.stage != NoUpdate && Follow(d.summary, env.msg).stage != NoUpdate
    requires !d.searching && d.wait == None && d.send == None
    ensures Next(d, env) == d.(summary := Follow(d.summary, env.msg))
    ensures Publishes(d, env) == Orders(d.summary.stage, Follow(d.summary, env.msg).stage)
  {
    hide Follow, Orders;
  }

  // Either storage mode begins.

  /** A confirmation of the storage module or a stopped download. */
  predicate Opens(msg: Msg) {
    msg.StorageBuffer? || msg.StoragePassthrough? || (msg.FotaEvent? && Stops(msg.fota))
  }

  lemma Entering(d: Device, env: Env)
    requires Enters(d.summary, Follow(d.summary, env.msg)) && Opens(env.msg)
    ensures var to := Follow(d.summary, env.msg);
            && Begins(d, env) == Active(to)
            && Publishes(d, env) == (if Online(to) && !d.polled then [GetDesired] else [])
                                    + (if Active(to) then [SearchTrigger] else [])
  {
    hide Replies, Changes, NextSample, NextUpdate;
    NoReply(d, env.msg);
  }

  /** A stay in buffer mode begins with a search at once. */
  lemma BufferEntered(v: View, connected: bool, env: Env)
    ensures GoBuffer(v, connected, true, env)
         == v.(leaf := SamplingState(connected), history := BufferState(connected), start := env.now,
               polled := v.polled || connected, sampleTimer := None, sendTimer := Some(env.now + v.update),
               outs := v.outs + (if connected && !v.polled then [GetDesired] else []) + [SearchTrigger])
  {
    assert v.outs + [] == v.outs;
  }

  lemma EntersBufferShows(v: View, connected: bool, env: Env)
    requires Opens(env.msg) && Enters(Summarize(v), Follow(Summarize(v), env.msg))
    requires Follow(Summarize(v), env.msg) == Summary(Buffer, connected, NoUpdate)
    ensures Shows(v, env, GoBuffer(v, connected, true, env))
  {
    hide Replies, NextSample, NextUpdate, Changes, Publishes, Begins, Follow, GoBuffer;
    NoReply(Watch(v), env.msg);
    Entering(Watch(v), env);
    BufferEntered(v, connected, env);
    Parts(v.outs, if connected && !v.polled then [GetDesired] else [], [SearchTrigger]);
  }

  lemma EntersPassthroughShows(v: View, connected: bool, env: Env)
    requires Opens(env.msg) && Enters(Summarize(v), Follow(Summarize(v), env.msg))
    requires Follow(Summarize(v), env.msg) == Summary(Passthrough, connected, NoUpdate)
    ensures Shows(v, env, GoPassthrough(v, connected, true, env))
  {
    hide Replies, NextSample, NextUpdate, Changes, Publishes, Begins, Follow;
    NoReply(Watch(v), env.msg);
    Entering(Watch(v), env);
  }

  lemma UpdateBeginsShows(v: View, env: Env)
    requires Ok(v) && ModeOf(v.leaf) != Update && env.msg == FotaEvent(DownloadingUpdate)
    ensures Shows(v, env, Stopped(v).(leaf := FotaDownloading))
  {
    hide Replies, NextSample, NextUpdate, Changes;
    NoReply(Watch(v), env.msg);
    assert v.outs + [] == v.outs;
  }

  // Buffer mode.

  lemma BufferFacts(v: View)
    requires Ok(v) && ModeOf(v.leaf) == Buffer
    ensures var d := Watch(v);
            && d.summary == Summary(Buffer, Connected(v.leaf), NoUpdate) && d.searching == !Waiting(v.leaf)
            && (d.searching ==> d.wait == None) && (Online(d.summary) ==> d.polled)
  {
  }

  /** A change of connectivity begins to sample, or to wait. */
  lemma BufferReconnected(v: View, connected: bool, env: Env)
    ensures var begins := !TooSoon(v, env);
            GoBuffer(v, connected, false, env)
            == v.(leaf := if begins then SamplingState(connected) else WaitingState(connected),
                  history := BufferState(connected), start := if begins then env.now else v.start,
                  polled := v.polled || connected,
                  sampleTimer := if begins then None else Some(Max(env.now, v.start + v.sample)),
                  outs := v.outs + ((if connected && !v.polled then [GetDesired] else [])
                                    + (if begins then [SearchTrigger] else [])))
  {
    Parts(v.outs, if connected && !v.polled then [GetDesired] else [], [SearchTrigger]);
    Parts(v.outs, if connected && !v.polled then [GetDesired] else [], []);
    assert v.outs + [] == v.outs;
  }

  lemma ReconnectingNext(d: Device, env: Env)
    requires d.summary.stage == NoUpdate && d.summary.mode == Buffer
    requires (env.msg.CloudConnected? || env.msg.CloudDisconnected?) && d.summary.connected != env.msg.CloudConnected?
    ensures var begins := d.start == 0 || env.now - d.start >= d.sample;
            && Begins(d, env) == begins
            && Next(d, env) == d.(summary := d.summary.(connected := env.msg.CloudConnected?), searching := begins,
                                  start := if begins then env.now else d.start,
                                  polled := d.polled || env.msg.CloudConnected?,
                                  wait := if begins then None else Some(Max(env.now, d.start + d.sample)))
  {
    hide NextSample, NextUpdate, Changes;
    NoReply(d, env.msg);
  }

  lemma ReconnectShows(v: View, env: Env)
    requires Ok(v) && ModeOf(v.leaf) == Buffer && (env.msg.CloudConnected? || env.msg.CloudDisconnected?)
    requires Connected(v.leaf) != env.msg.CloudConnected?
    ensures Shows(v, env, GoBuffer(v, env.msg.CloudConnected?, false, env))
  {
    hide Publishes, Next, Begins, GoBuffer, Inv;
    BufferFacts(v);
    Reconnecting(Watch(v), env);
    ReconnectingNext(Watch(v), env);
    BufferReconnected(v, env.msg.CloudConnected?, env);
  }

  /** Messages that do nothing here. */
  lemma IdleShows(v: View, env: Env)
    requires Ok(v) && ModeOf(v.leaf) == Buffer
    requires match env.msg
             case CloudConnected => Connected(v.leaf)
             case CloudDisconnected => !Connected(v.leaf)
             case LongPress => !Connected(v.leaf)
             case SearchDone => Waiting(v.leaf)
             case ShortPress => !Waiting(v.leaf)
             case SampleExpired => !Waiting(v.leaf)
             case ConfigChanged => !Waiting(v.leaf)
             case FotaEvent(fota) => fota != DownloadingUpdate
             case _ => false
    ensures Shows(v, env, v)
  {
    hide Replies, NextSample, NextUpdate, Changes, Publishes, Inv;
    BufferFacts(v);
    NoReply(Watch(v), env.msg);
    Standing(Watch(v), env);
    assert v.outs + [] == v.outs;
  }

  lemma SampleIs(v: View, connected: bool, env: Env)
    ensures var begins := !TooSoon(v, env);
            Sample(v, connected, env)
            == v.(leaf := if begins then SamplingState(connected) else WaitingState(connected),
                  start := if begins then env.now else v.start,
                  sampleTimer := if begins then None else Some(Max(env.now, v.start + v.sample)),
                  outs := v.outs + (if begins then [SearchTrigger] else []))
  {
    assert v.outs + [] == v.outs;
  }

  lemma SampleNext(d: Device, env: Env)
    requires d.summary.stage == NoUpdate && d.summary.mode == Buffer && !d.searching && (Online(d.summary) ==> d.polled)
    requires env.msg.ShortPress? || env.msg.SampleExpired?
    ensures var begins := d.start == 0 || env.now - d.start >= d.sample || env.msg.ShortPress?;
            && Publishes(d, env) == (if begins then [SearchTrigger] else [])
            && Next(d, env) == d.(searching := begins, start := if begins then env.now else d.start,
                                  wait := if begins then None else Some(Max(env.now, d.start + d.sample)))
  {
    hide Replies, NextSample, NextUpdate, Changes, Publishes;
    NoReply(d, env.msg);
    Standing(d, env);
  }

  lemma SampleShows(v: View, env: Env)
    requires Ok(v) && ModeOf(v.leaf) == Buffer && Waiting(v.leaf) && (env.msg.ShortPress? || env.msg.SampleExpired?)
    ensures Shows(v, env, Sample(v, Connected(v.leaf), env))
  {
    hide Publishes, Next, Inv, Sample;
    BufferFacts(v);
    SampleNext(Watch(v), env);
    SampleIs(v, Connected(v.leaf), env);
  }

  lemma SearchDoneShows(v: View, env: Env)
    requires Ok(v) && ModeOf(v.leaf) == Buffer && !Waiting(v.leaf) && env.msg == SearchDone
    ensures var waiting := if Connected(v.leaf) then BufferConnectedWaiting else BufferDisconnectedWaiting;
            Shows(v, env, Wait(Publish(v, [SensorRequests]).(leaf := waiting), v.sample, env.now))
  {
    hide Replies, NextSample, NextUpdate, Changes, Publishes, Inv;
    BufferFacts(v);
    NoReply(Watch(v), env.msg);
    Standing(Watch(v), env);
  }

  lemma BatchSent(v: View, env: Env)
    ensures Poll(RequestBatch(v, env))
         == v.(session := env.ms, outs := v.outs + ([BatchRequest(env.ms)] + [FotaPoll, GetDelta]))
  {
    Parts(v.outs, [BatchRequest(env.ms)], [FotaPoll, GetDelta]);
  }

  lemma BatchShows(v: View, env: Env)
    requires Ok(v) && ModeOf(v.leaf) == Buffer && Connected(v.leaf) && (env.msg.CloudExpired? || env.msg.LongPress?)
    ensures var w := Poll(RequestBatch(v, env));
            Shows(v, env, if env.msg.LongPress? && Waiting(v.leaf) then w else RestartSend(w, env))
  {
    hide Publishes, Next, Inv, Poll, RequestBatch, Begins;
    BufferFacts(v);
    BatchNext(Watch(v), env);
    BatchSent(v, env);
  }

  lemma BatchNext(d: Device, env: Env)
    requires d.summary == Summary(Buffer, true, NoUpdate) && d.polled && (d.searching ==> d.wait == None)
    requires env.msg.CloudExpired? || env.msg.LongPress?
    ensures Publishes(d, env) == [BatchRequest(env.ms)] + [FotaPoll, GetDelta]
    ensures Next(d, env) == d.(session := env.ms, send := if env.msg.LongPress? && !d.searching then d.send
                                                         else Some(env.now + d.update))
  {
    hide Publishes, Next;
    Standing(d, env);
    Resting(d, env);
  }

  lemma RestartShows(v: View, env: Env)
    requires Ok(v) && ModeOf(v.leaf) == Buffer && env.msg.CloudExpired? && !Connected(v.leaf)
    ensures Shows(v, env, RestartSend(v, env))
  {
    hide Publishes, Next, Inv;
    BufferFacts(v);
    Standing(Watch(v), env);
    Resting(Watch(v), env);
    assert v.outs + [] == v.outs;
  }

  lemma WaitsAgainShows(v: View, env: Env)
    requires Ok(v) && ModeOf(v.leaf) == Buffer && env.msg.ConfigChanged? && Waiting(v.leaf)
    ensures Shows(v, env, Wait(v, v.sample, env.now))
  {
    hide Replies, NextSample, NextUpdate, Changes, Publishes, Inv;
    BufferFacts(v);
    NoReply(Watch(v), env.msg);
    Standing(Watch(v), env);
    assert v.outs + [] == v.outs;
  }

  lemma ModeFollows(v: View, env: Env)
    requires ModeOf(v.leaf) != Update && (env.msg.StorageBuffer? || env.msg.StoragePassthrough?)
    ensures var mode := if env.msg.StorageBuffer? then Buffer else Passthrough;
            && Follow(Summarize(v), env.msg) == Summary(mode, Connected(v.leaf), NoUpdate)
            && Summarize(v) == Summary(ModeOf(v.leaf), Connected(v.leaf), NoUpdate)
  {
  }

  /** The rest. */
  predicate Unheard(msg: Msg) {
    msg.CloudOther? || msg.NetworkDisconnected? || msg.NetworkOther? || msg.LocationOther? || msg.StorageOther?
  }

  lemma UnheardShows(v: View, env: Env)
    requires Ok(v) && ModeOf(v.leaf) != Update
    requires Unheard(env.msg) || (env.msg.StorageBuffer? && ModeOf(v.leaf) == Buffer)
          || ((env.msg.StoragePassthrough? || env.msg.CloudExpired?) && ModeOf(v.leaf) == Passthrough)
          || (!Connected(v.leaf) && (env.msg.ShadowResponse? || env.msg.EmptyDesired?))
    ensures Shows(v, env, v)
  {
  }

  lemma BufferShows(v: View, env: Env)
    requires Ok(v) && ModeOf(v.leaf) == Buffer
    ensures Shows(v, env, StepBuffer(v, env))
  {
    hide StepShadow, GoBuffer, GoPassthrough, Sample, Shows, Wait, RequestBatch, Poll, RestartSend, Publish, Stopped,
        Inv;
    match env.msg
    case CloudConnected => if Connected(v.leaf) { IdleShows(v, env); } else { ReconnectShows(v, env); }
    case CloudDisconnected => if Connected(v.leaf) { ReconnectShows(v, env); } else { IdleShows(v, env); }
    case ShadowResponse(_, _) => if Connected(v.leaf) { ShadowShows(v, env); } else { UnheardShows(v, env); }
    case EmptyDesired => if Connected(v.leaf) { ShadowShows(v, env); } else { UnheardShows(v, env); }
    case StoragePassthrough => ModeFollows(v, env); EntersPassthroughShows(v, Connected(v.leaf), env);
    case FotaEvent(fota) => if fota == DownloadingUpdate { UpdateBeginsShows(v, env); } else { IdleShows(v, env); }
    case SearchDone => if Waiting(v.leaf) { IdleShows(v, env); } else { SearchDoneShows(v, env); }
    case ShortPress => if Waiting(v.leaf) { SampleShows(v, env); } else { IdleShows(v, env); }
    case SampleExpired => if Waiting(v.leaf) { SampleShows(v, env); } else { IdleShows(v, env); }
    case ConfigChanged => if Waiting(v.leaf) { WaitsAgainShows(v, env); } else { IdleShows(v, env); }
    case CloudExpired => if Connected(v.leaf) { BatchShows(v, env); } else { RestartShows(v, env); }
    case LongPress => if Connected(v.leaf) { BatchShows(v, env); } else { IdleShows(v, env); }
    case _ => UnheardShows(v, env);
  }

  // Either storage mode.

  lemma ShadowShows(v: View, env: Env)
    requires Ok(v) && Connected(v.leaf)
    requires env.msg.ShadowResponse? || env.msg.EmptyDesired?
    ensures Shows(v, env, StepShadow(v, env))
  {
    if env.msg.ShadowResponse? && env.msg.decoded.Some? {
      AcceptedShows(v, env, env.msg.decoded.value);
      hide HandleShadow, Shows;
    } else {
      hide HandleShadow;
    }
  }

  lemma AcceptedShows(v: View, env: Env, shadow: Shadow)
    requires Ok(v) && Connected(v.leaf) && env.msg.ShadowResponse? && env.msg.decoded == Some(shadow)
    ensures Shows(v, env, HandleShadow(v, env.msg.delta, shadow, ModeOf(v.leaf) == Buffer, env))
  {
    hide Replies, Publishes;
    AcceptedSays(v, env, shadow);
    Accepting(Watch(v), env);
  }

  lemma Accepting(d: Device, env: Env)
    requires Accepted(d.summary, env.msg).Some? && d.polled
    ensures Publishes(d, env) == Replies(d, env.msg) && Follow(d.summary, env.msg) == d.summary
  {
    hide Replies;
  }

  lemma ParamsApplied(v: View, p: Params, env: Env)
    ensures var sample, update := Settled(v.sample, p.sample), Settled(v.update, p.update);
            var changed := sample != v.sample || update != v.update;
            ApplyParams(v, p, env)
            == v.(sample := sample, update := update, start := if changed then env.now else v.start,
                  outs := v.outs + ((if Effective(p) then [ModeRequest(p.bufferModeValid && p.bufferMode)] else [])
                                    + (if changed then [TimersChanged] else [])))
  {
    Parts(v.outs, [ModeRequest(p.bufferModeValid && p.bufferMode)], [TimersChanged]);
    assert v.outs + ([] + []) == v.outs;
  }

  lemma AcceptedSays(v: View, env: Env, shadow: Shadow)
    requires Ok(v) && Connected(v.leaf) && env.msg.ShadowResponse? && env.msg.decoded == Some(shadow)
    ensures HandleShadow(v, env.msg.delta, shadow, ModeOf(v.leaf) == Buffer, env).outs
         == v.outs + Replies(Watch(v), env.msg)
  {
    hide ApplyParams, Inv, Settled, Effective;
    ParamsApplied(v, shadow.params, env);
  }

  // Passthrough mode.

  lemma PassthroughMovesShow(v: View, env: Env)
    requires Ok(v) && ModeOf(v.leaf) == Passthrough && (env.msg.CloudConnected? || env.msg.CloudDisconnected?)
    ensures Shows(v, env, GoPassthrough(v, env.msg.CloudConnected?, false, env))
  {
    hide Replies, NextSample, NextUpdate, Changes;
    NoReply(Watch(v), env.msg);
  }

  lemma PassthroughSearchDoneShows(v: View, env: Env)
    requires Ok(v) && ModeOf(v.leaf) == Passthrough && env.msg == SearchDone
    ensures Shows(v, env, StepPassthrough(v, env))
  {
    hide Replies, NextSample, NextUpdate, Changes, StepShadow, GoBuffer, GoPassthrough, Publishes;
    NoReply(Watch(v), env.msg);
    Standing(Watch(v), env);
    Parts(v.outs, [SensorRequests], [FotaPoll, GetDelta]);
  }

  lemma PassthroughWaitingShows(v: View, env: Env)
    requires Ok(v) && v.leaf == PassthroughConnectedWaiting
    requires env.msg.ShortPress? || env.msg.SampleExpired? || env.msg.ConfigChanged? || env.msg.LongPress?
    ensures Shows(v, env, if env.msg.ConfigChanged? then Wait(v, v.update, env.now)
                          else if env.msg.LongPress? then Poll(v) else SamplePassthrough(v, env))
  {
    hide Replies, NextSample, NextUpdate, Changes, Publishes;
    NoReply(Watch(v), env.msg);
    Standing(Watch(v), env);
    assert v.outs + [] == v.outs;
  }

  lemma PassthroughIdleShows(v: View, env: Env)
    requires Ok(v) && ModeOf(v.leaf) == Passthrough
    requires if env.msg.FotaEvent? then env.msg.fota != DownloadingUpdate
             else (env.msg.ShortPress? || env.msg.SampleExpired? || env.msg.ConfigChanged? || env.msg.LongPress?)
                  && !Waiting(v.leaf)
    ensures Shows(v, env, v)
  {
    hide Replies, NextSample, NextUpdate, Changes, Publishes;
    NoReply(Watch(v), env.msg);
    Standing(Watch(v), env);
    assert v.outs + [] == v.outs;
  }

  lemma PassthroughShows(v: View, env: Env)
    requires Ok(v) && ModeOf(v.leaf) == Passthrough
    ensures Shows(v, env, StepPassthrough(v, env))
  {
    hide StepShadow, GoBuffer, GoPassthrough, SamplePassthrough, Shows, Wait, Poll, Publish, Stopped, Inv;
    match env.msg
    case CloudConnected => PassthroughMovesShow(v, env);
    case CloudDisconnected => PassthroughMovesShow(v, env);
    case ShadowResponse(_, _) => if Connected(v.leaf) { ShadowShows(v, env); } else { UnheardShows(v, env); }
    case EmptyDesired => if Connected(v.leaf) { ShadowShows(v, env); } else { UnheardShows(v, env); }
    case StorageBuffer => ModeFollows(v, env); EntersBufferShows(v, Connected(v.leaf), env);
    case FotaEvent(fota) =>
      if fota == DownloadingUpdate { UpdateBeginsShows(v, env); } else { PassthroughIdleShows(v, env); }
    case SearchDone => PassthroughSearchDoneShows(v, env);
    case ShortPress => if Waiting(v.leaf) { PassthroughWaitingShows(v, env); } else { PassthroughIdleShows(v, env); }
    case SampleExpired => if Waiting(v.leaf) { PassthroughWaitingShows(v, env); } else { PassthroughIdleShows(v, env); }
    case ConfigChanged => if Waiting(v.leaf) { PassthroughWaitingShows(v, env); } else { PassthroughIdleShows(v, env); }
    case LongPress => if Waiting(v.leaf) { PassthroughWaitingShows(v, env); } else { PassthroughIdleShows(v, env); }
    case _ => UnheardShows(v, env);
  }

  // Updates.

  lemma ResumeShows(v: View, env: Env)
    requires Ok(v) && ModeOf(v.leaf) == Update && v.leaf != FotaRebooting && env.msg.FotaEvent? && Stops(env.msg.fota)
    ensures Shows(v, env, Resume(v, env))
  {
    hide GoBuffer, GoPassthrough, Shows;
    if v.history == BufferDisconnected || v.history == BufferConnected {
      EntersBufferShows(v, v.history == BufferConnected, env);
    } else {
      EntersPassthroughShows(v, v.history == PassthroughConnectedSampling, env);
    }
  }

  lemma RemembersShows(v: View, env: Env)
    requires Ok(v) && ModeOf(v.leaf) == Update && v.leaf != FotaRebooting
    requires env.msg.CloudConnected? || env.msg.CloudDisconnected?
    ensures Shows(v, env, v.(history := Remember(v.history, env.msg.CloudConnected?)))
  {
    hide Publishes, Next;
    Staging(Watch(v), env);
    assert v.outs + [] == v.outs;
  }

  lemma UpdateShows(v: View, env: Env)
    requires Ok(v) && ModeOf(v.leaf) == Update && v.leaf != FotaRebooting
    ensures Shows(v, env, StepUpdate(v, env))
  {
    hide Resume, Shows, StepUpdate;
    if env.msg.CloudConnected? || env.msg.CloudDisconnected? {
      RemembersShows(v, env);
      ConnectivityRemembered(v, env);
    } else if env.msg.FotaEvent? && Stops(env.msg.fota) {
      ResumeShows(v, env);
      StopResumes(v, env);
    } else {
      StagesShow(v, env);
    }
  }

  lemma StageFacts(v: View, env: Env)
    requires Inv(v) && ModeOf(v.leaf) == Update && v.leaf != FotaRebooting
    requires !(env.msg.FotaEvent? && Stops(env.msg.fota)) && !env.msg.CloudConnected? && !env.msg.CloudDisconnected?
    ensures var w := StepUpdate(v, env);
            && Summarize(w) == Follow(Summarize(v), env.msg)
            && Summarize(v).stage == StageOf(v.leaf) != NoUpdate && Summarize(w).stage == StageOf(w.leaf) != NoUpdate
            && !Searching(v.leaf) && !Searching(w.leaf)
  {
    hide StepUpdate, Follow;
    UpdateSummarizes(v, env);
    UpdateStays(v, env);
  }

  lemma StagesShow(v: View, env: Env)
    requires Ok(v) && ModeOf(v.leaf) == Update && v.leaf != FotaRebooting
    requires !(env.msg.FotaEvent? && Stops(env.msg.fota)) && !env.msg.CloudConnected? && !env.msg.CloudDisconnected?
    ensures Shows(v, env, StepUpdate(v, env))
  {
    hide Publishes, Next, StepUpdate, Orders, Follow, Summarize, Searching, StageOf, HistoryMatches;
    StageFacts(v, env);
    StageOnly(v, env);
    Staging(Watch(v), env);
  }

  lemma StageOnly(v: View, env: Env)
    requires ModeOf(v.leaf) == Update && IsLeaf(v.leaf) && v.leaf != FotaRebooting
    requires v.sampleTimer == None && v.sendTimer == None
    requires !(env.msg.FotaEvent? && Stops(env.msg.fota)) && !env.msg.CloudConnected? && !env.msg.CloudDisconnected?
    ensures var w := StepUpdate(v, env);
            w == v.(leaf := w.leaf, outs := v.outs + Orders(StageOf(v.leaf), StageOf(w.leaf)))
  {
    hide Resume;
    assert v.outs + [] == v.outs;
  }

  /** One message does to the device exactly what the small machine says, and publishes exactly that. */
  lemma StepShows(v: View, env: Env)
    requires Ok(v)
    ensures Ok(Step(v, env)) && Shows(v, env, Step(v, env))
  {
    hide Inv, StepBuffer, StepPassthrough, StepUpdate, Shows;
    StepKeepsInv(v, env);
    match ModeOf(v.leaf) {
      case Buffer => BufferShows(v, env);
      case Passthrough => PassthroughShows(v, env);
      case Update =>
        if v.leaf == FotaRebooting {
          RebootingShows(v, env);
        } else {
          UpdateShows(v, env);
        }
    }
    StaysPolled(v, env);
  }

  lemma RebootingShows(v: View, env: Env)
    requires Ok(v) && v.leaf == FotaRebooting
    ensures Shows(v, env, v)
  {
    hide Publishes, Next, Follow;
    RebootingStays(v, env);
    Staging(Watch(v), env);
    assert v.outs + [] == v.outs;
  }

  lemma StaysPolled(v: View, env: Env)
    requires Ok(v) && Shows(v, env, Step(v, env)) && Inv(Step(v, env))
    ensures Connected(Step(v, env).leaf) ==> Step(v, env).polled
  {
    hide Step, NextSearching, NextStart, NextSample, NextUpdate, Sends, NextWait, NextSend, Publishes, Follow;
  }

  // ---- Runs ----

  function NextAll(d: Device, envs: seq<Env>): Device {
    if envs == [] then d else Next(NextAll(d, envs[..|envs| - 1]), envs[|envs| - 1])
  }

  /** Everything that a run publishes, read off the messages. */
  function Story(d: Device, envs: seq<Env>): seq<Out> {
    if envs == [] then []
    else
      var before := envs[..|envs| - 1];
      Story(d, before) + Publishes(NextAll(d, before), envs[|envs| - 1])
  }

  lemma {:induction false} RunShows(v: View, envs: seq<Env>)
    requires Ok(v)
    ensures Ok(After(v, envs)) && Watch(After(v, envs)) == NextAll(Watch(v), envs)
    ensures After(v, envs).outs == v.outs + Story(Watch(v), envs)
  {
    hide Step, Next, Publishes, Inv, Watch;
    if envs == [] {
      assert v.outs + [] == v.outs;
    } else {
      RunShows(v, envs[..|envs| - 1]);
      StepShows(After(v, envs[..|envs| - 1]), envs[|envs| - 1]);
    }
  }

  /** The device at start-up. */
  function Booted(mode: State, sample: UInt32, update: UInt32, now: nat): Device {
    var buffer := mode == BufferMode;
    Device(Summary(if buffer then Buffer else Passthrough, false, NoUpdate), buffer, if buffer then now else 0, sample,
           update, false, 0, None, if buffer then Some(now + update) else None)
  }

  lemma Boots(mode: State, sample: UInt32, update: UInt32, now: nat, ms: UInt32)
    requires ModeState(mode)
    ensures var v := Initial(mode, sample, update, now, ms);
            && Ok(v) && Watch(v) == Booted(mode, sample, update, now)
            && v.outs == if mode == BufferMode then [SearchTrigger] else []
  {
    StartsInv(mode, sample, update, now, ms);
    hide Inv;
  }

  /** Two states that look alike to the user are the same: the nineteen-state chart hides nothing. */
  lemma LooksDetermine(v: View, w: View)
    requires Inv(v) && Inv(w) && Watch(v) == Watch(w)
    ensures v.(outs := []) == w.(outs := [])
  {
  }

  lemma ShowsFromStart(mode: State, sample: UInt32, update: UInt32, now: nat, ms: UInt32, envs: seq<Env>)
    requires ModeState(mode)
    ensures var w, d := After(Initial(mode, sample, update, now, ms), envs), Booted(mode, sample, update, now);
            && Watch(w) == NextAll(d, envs)
            && w.outs == (if mode == BufferMode then [SearchTrigger] else []) + Story(d, envs)
  {
    hide Initial, After, Booted, Watch, Ok, NextAll, Story;
    Boots(mode, sample, update, now, ms);
    RunShows(Initial(mode, sample, update, now, ms), envs);
  }
}
