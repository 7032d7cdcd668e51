/** The cloud connection machine: its chart, its actions, and one flat table of what each message does. */
module CloudSpec {
  import opened Common
  import opened StorageSpec
  import Drain
  import Smf

  datatype State =
    | Running
    | Disconnected
    | Connecting
    | ConnectingAttempt
    | Provisioned
    | Provisioning
    | ConnectingBackoff
    | Connected
    | ConnectedReady
    | ConnectedPaused

  /** The ancestors of a state, root first, and the state itself. */
  function Path(s: State): (path: seq<State>)
    ensures |path| > 0 && path[|path| - 1] == s
  {
    match s
    case Running => [Running]
    case Disconnected => [Running, Disconnected]
    case Connecting => [Running, Connecting]
    case ConnectingAttempt => [Running, Connecting, ConnectingAttempt]
    case Provisioned => [Running, Connecting, ConnectingAttempt, Provisioned]
    case Provisioning => [Running, Connecting, ConnectingAttempt, Provisioning]
    case ConnectingBackoff => [Running, Connecting, ConnectingBackoff]
    case Connected => [Running, Connected]
    case ConnectedReady => [Running, Connected, ConnectedReady]
    case ConnectedPaused => [Running, Connected, ConnectedPaused]
  }

  function LeafOf(s: State): (leaf: State)
    ensures IsLeaf(leaf) && Path(s) <= Path(leaf)
  {
    match s
    case Running => Disconnected
    case Connecting => Provisioned
    case ConnectingAttempt => Provisioned
    case Connected => ConnectedReady
    case _ => s
  }

  predicate IsLeaf(s: State) {
    s != Running && s != Connecting && s != ConnectingAttempt && s != Connected
  }

  /** PRIV_CLOUD_CHAN. */
  datatype Private =
    | ConnectionFailed
    | ConnectionSuccess
    | NotAuthenticated
    | ProvisioningFinished
    | ProvisioningFailed
    | BackoffExpired
    | SendRequestFailed

  /** What the subscriber receives. `failed` says whether the request that a message stands for, once sent
      to the cloud service, fails. */
  datatype Msg =
    | NetworkConnected
    | NetworkDisconnected
    | NetworkOther
    | Priv(msg: Private)
    | Stored(storage: StorageMsg)
    | CloudWork(failed: bool)
    | ProvisioningRequest
    | Other

  /** What the module publishes and what it asks of its libraries, in order; and that the assertion on the
      backoff time does not hold. */
  datatype Out =
    | SayConnected
    | SayDisconnected
    | Connect
    | CancelSearch
    | TriggerProvisioning
    | CoapDisconnect
    | SayRequestFailed
    | BackoffAssertFails
    | ReadBatch
    | Say(storage: StorageMsg)

  datatype BackoffType = Exponential | Linear | Constant

  /** The backoff options, in seconds. */
  datatype Config = Config(backoffType: BackoffType, initial: UInt32, increment: UInt32, max: UInt32)

  datatype View = View(
    leaf: State,
    online: bool,
    provisioning: bool,
    attempts: UInt32,
    backoff: UInt32,
    timer: bool,
    outs: seq<Out>)

  function Power(n: nat): (p: nat)
    ensures p >= 1
  {
    if n == 0 then 1 else 2 * Power(n - 1)
  }

  /** The configured formula for the `k`-th backoff. */
  function Formula(c: Config, k: nat): nat
    requires k >= 1
  {
    match c.backoffType
    case Exponential => c.initial * Power(k - 1)
    case Linear => c.initial + (k - 1) * c.increment
    case Constant => c.initial
  }

  /** `calculate_backoff_time`, in 32-bit arithmetic: the counter wraps before `attempts - 1` does. */
  function BackoffTime(c: Config, attempts: UInt32): UInt32 {
    Formula(c, if attempts == 0 then U32 else attempts) % U32
  }

  function Publish(v: View, outs: seq<Out>): View {
    v.(outs := v.outs + outs)
  }

  // ---- Entry and exit actions ----

  /** The backoff time is calculated, asserted to be within the maximum, and waited for. */
  function StartBackoff(c: Config, v: View): View {
    var time := BackoffTime(c, v.attempts);
    Publish(v.(backoff := time, timer := true), if time <= c.max then [] else [BackoffAssertFails])
  }

  function Entry(c: Config, s: State, v: View): View {
    match s
    case Disconnected => Publish(v, [SayDisconnected])
    case Connecting => v.(attempts := 0, provisioning := false)
    case ConnectingAttempt => v.(attempts := (v.attempts + 1) % U32)
    case Provisioned => Publish(v.(provisioning := false), [Connect])
    case Provisioning => Publish(v.(provisioning := true), [CancelSearch, TriggerProvisioning])
    case ConnectingBackoff => StartBackoff(c, v)
    case ConnectedReady => Publish(v, [SayConnected])
    case ConnectedPaused => Publish(v, [SayDisconnected])
    case _ => v
  }

  function Exit(s: State, v: View): View {
    match s
    case ConnectingBackoff => v.(timer := false)
    case Connected => Publish(v, [CoapDisconnect, SayDisconnected])
    case _ => v
  }

  function Entries(c: Config, states: seq<State>, v: View): View {
    if states == [] then v else Entries(c, states[1..], Entry(c, states[0], v))
  }

  /** Leaf first. */
  function Exits(states: seq<State>, v: View): View {
    if states == [] then v else Exits(states[..|states| - 1], Exit(states[|states| - 1], v))
  }

  /** `smf_set_state` called from a handler of `executing`, the leaf or one of its ancestors. */
  function Transition(c: Config, v: View, executing: State, target: State): View
    requires Path(executing) <= Path(v.leaf)
  {
    var top, leaf := Smf.Top(Path(executing), Path(target)), LeafOf(target);
    Entries(c, Path(leaf)[top..], Exits(Path(v.leaf)[top..], v).(leaf := leaf))
  }

  // ---- The flat table ----

  /** A further attempt. */
  function Attempt(v: View, provisioned: bool): View {
    var v1 := v.(attempts := (v.attempts + 1) % U32, timer := false);
    if provisioned then Publish(v1.(leaf := Provisioned, provisioning := false), [Connect])
    else Publish(v1.(leaf := Provisioning, provisioning := true), [CancelSearch, TriggerProvisioning])
  }

  /** The first attempt of a new connection. */
  function FirstAttempt(v: View, provisioned: bool): View {
    Attempt(v.(attempts := 0), provisioned)
  }

  function BackOff(c: Config, v: View): View {
    StartBackoff(c, v.(leaf := ConnectingBackoff))
  }

  function GoDisconnected(v: View): View {
    Publish(v.(leaf := Disconnected, timer := false), [SayDisconnected])
  }

  /** The connection is given up. */
  function Leave(v: View): View {
    Publish(v, [CoapDisconnect, SayDisconnected])
  }

  function StepPrivate(c: Config, v: View, msg: Private): View {
    match (v.leaf, msg)
    case (Provisioned, NotAuthenticated) =>
      Publish(v.(leaf := Provisioning, provisioning := true), [CancelSearch, TriggerProvisioning])
    case (Provisioned, ConnectionSuccess) => Publish(v.(leaf := ConnectedReady), [SayConnected])
    case (Provisioned, ConnectionFailed) => BackOff(c, v)
    case (Provisioning, ProvisioningFinished) => Publish(v.(leaf := Provisioned, provisioning := false), [Connect])
    case (Provisioning, ProvisioningFailed) => if v.online then BackOff(c, v) else GoDisconnected(v)
    case (ConnectingBackoff, BackoffExpired) => Attempt(v, !v.provisioning)
    case (ConnectedReady, SendRequestFailed) => FirstAttempt(Leave(v), true)
    case _ => v
  }

  function SayAll(msgs: seq<StorageMsg>): (outs: seq<Out>)
    ensures |outs| == |msgs|
  {
    seq(|msgs|, i requires 0 <= i < |msgs| => Out.Say(msgs[i]))
  }

  function StepStored(v: View, msg: StorageMsg): View {
    match v.leaf
    case ConnectedReady =>
      Publish(v, (if msg.BatchAvailable? then [ReadBatch] else []) + SayAll(Drain.Answer(msg)))
    case ConnectedPaused =>
      if msg.BatchAvailable? || msg.BatchEmpty? || msg.BatchError? then Publish(v, [Out.Say(BatchClose(msg.id))]) else v
    case _ => v
  }

  /** The network status is retained before the state machine sees a message. */
  function Retain(v: View, msg: Msg): View {
    v.(online := if msg.NetworkConnected? then true else if msg.NetworkDisconnected? then false else v.online)
  }

  /** One message. */
  function Step(c: Config, v0: View, msg: Msg): View {
    var v := Retain(v0, msg);
    match (v.leaf, msg)
    case (Disconnected, NetworkConnected) => FirstAttempt(v, true)
    case (ConnectedPaused, NetworkConnected) => Publish(v.(leaf := ConnectedReady), [SayConnected])
    case (ConnectedReady, NetworkDisconnected) => Publish(v.(leaf := ConnectedPaused), [SayDisconnected])
    case (Provisioned, NetworkDisconnected) => GoDisconnected(v)
    case (ConnectingBackoff, NetworkDisconnected) => GoDisconnected(v)
    case (_, Priv(p)) => StepPrivate(c, v, p)
    case (_, Stored(s)) => StepStored(v, s)
    case (ConnectedReady, CloudWork(failed)) => if failed then Publish(v, [SayRequestFailed]) else v
    case (ConnectedReady, ProvisioningRequest) => FirstAttempt(Leave(v), false)
    case _ => v
  }
}
