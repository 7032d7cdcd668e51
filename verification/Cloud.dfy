/** The cloud module: its state object, its handlers and the framework's dispatch, and the proof that one
    message does exactly what the flat table in CloudSpec says. */
module Cloud {
  import opened Common
  import opened CloudSpec
  import StorageSpec
  import Drain
  import Smf

  /** The backoff timer runs only in the backoff state. */
  ghost predicate Owned(v: View) {
    IsLeaf(v.leaf) && (v.timer ==> v.leaf == ConnectingBackoff)
  }

  // ---- What the framework makes of each transition ----

  lemma EntriesOf(c: Config, states: seq<State>, v: View)
    ensures |states| == 1 ==> Entries(c, states, v) == Entry(c, states[0], v)
    ensures |states| == 2 ==> Entries(c, states, v) == Entry(c, states[1], Entry(c, states[0], v))
    ensures |states| == 3 ==>
              Entries(c, states, v) == Entry(c, states[2], Entry(c, states[1], Entry(c, states[0], v)))
    decreases |states|
  {
    if states != [] {
      EntriesOf(c, states[1..], Entry(c, states[0], v));
    }
  }

  lemma ExitsOf(states: seq<State>, v: View)
    ensures |states| == 1 ==> Exits(states, v) == Exit(states[0], v)
    ensures |states| == 2 ==> Exits(states, v) == Exit(states[0], Exit(states[1], v))
    ensures |states| == 3 ==> Exits(states, v) == Exit(states[0], Exit(states[1], Exit(states[2], v)))
    decreases |states|
  {
    if states != [] {
      ExitsOf(states[..|states| - 1], Exit(states[|states| - 1], v));
    }
  }

  /** A transition from the leaf or its ancestor `executing` that leaves the states below depth `top`. */
  lemma TransitionOf(c: Config, v: View, executing: State, target: State, top: nat)
    requires Path(executing) <= Path(v.leaf) && executing != target
    requires top <= |Path(executing)| && top <= |Path(target)| && Path(executing)[..top] == Path(target)[..top]
    requires top < |Path(executing)| && top < |Path(target)| ==> Path(executing)[top] != Path(target)[top]
    ensures var leaf := LeafOf(target);
            && top <= |Path(leaf)| && top <= |Path(v.leaf)|
            && Transition(c, v, executing, target)
               == Entries(c, Path(leaf)[top..], Exits(Path(v.leaf)[top..], v).(leaf := leaf))
  {
    Smf.SharedIs(Path(executing), Path(target), top);
    assert Path(executing) != Path(target);
  }

  /** Between two leaves, with what is left and entered spelled out. */
  lemma Moves(c: Config, v: View, executing: State, target: State, top: nat, left: seq<State>, entered: seq<State>)
    requires Path(executing) <= Path(v.leaf) && executing != target
    requires top <= |Path(executing)| && top <= |Path(target)| && Path(executing)[..top] == Path(target)[..top]
    requires top < |Path(executing)| && top < |Path(target)| ==> Path(executing)[top] != Path(target)[top]
    requires top <= |Path(v.leaf)| && left == Path(v.leaf)[top..]
    requires top <= |Path(LeafOf(target))| && entered == Path(LeafOf(target))[top..]
    ensures Transition(c, v, executing, target) == Entries(c, entered, Exits(left, v).(leaf := LeafOf(target)))
  {
    TransitionOf(c, v, executing, target, top);
  }

  lemma BeginsConnecting(c: Config, v: View)
    requires Owned(v) && v.leaf == Disconnected
    ensures Transition(c, v, Disconnected, Connecting) == FirstAttempt(v, true)
  {
    hide Transition, Entries, Exits;
    var entered := [Connecting, ConnectingAttempt, Provisioned];
    Moves(c, v, Disconnected, Connecting, 1, [Disconnected], entered);
    ExitsOf([Disconnected], v);
    EntriesOf(c, entered, v.(leaf := Provisioned));
  }

  lemma GivesUp(c: Config, v: View, target: State)
    requires Owned(v) && v.leaf == ConnectedReady && (target == Connecting || target == Provisioning)
    ensures Transition(c, v, ConnectedReady, target) == FirstAttempt(Leave(v), target == Connecting)
  {
    hide Transition, Entries, Exits;
    var left, leaf := [Connected, ConnectedReady], LeafOf(target);
    var entered := [Connecting, ConnectingAttempt, leaf];
    Moves(c, v, ConnectedReady, target, 1, left, entered);
    ExitsOf(left, v);
    EntriesOf(c, entered, Leave(v).(leaf := leaf));
  }

  lemma LosesNetwork(c: Config, v: View, executing: State)
    requires Owned(v)
    requires executing == Connecting || executing == Provisioning
    requires v.leaf == ConnectingBackoff || v.leaf == Provisioned || v.leaf == Provisioning
    requires executing == Provisioning ==> v.leaf == Provisioning
    ensures Path(executing) <= Path(v.leaf)
    ensures Transition(c, v, executing, Disconnected) == GoDisconnected(v)
  {
    hide Transition, Entries, Exits;
    var left := if v.leaf == ConnectingBackoff then [Connecting, ConnectingBackoff]
                else [Connecting, ConnectingAttempt, v.leaf];
    Moves(c, v, executing, Disconnected, 1, left, [Disconnected]);
    ExitsOf(left, v);
    EntriesOf(c, [Disconnected], v.(leaf := Disconnected, timer := false));
  }

  lemma BacksOff(c: Config, v: View)
    requires Owned(v) && (v.leaf == Provisioned || v.leaf == Provisioning)
    ensures Transition(c, v, v.leaf, ConnectingBackoff) == BackOff(c, v)
  {
    hide Transition, Entries, Exits;
    var left := [ConnectingAttempt, v.leaf];
    Moves(c, v, v.leaf, ConnectingBackoff, 2, left, [ConnectingBackoff]);
    ExitsOf(left, v);
    EntriesOf(c, [ConnectingBackoff], v.(leaf := ConnectingBackoff));
  }

  lemma TriesAgain(c: Config, v: View, provisioned: bool)
    requires Owned(v) && v.leaf == ConnectingBackoff
    ensures Transition(c, v, v.leaf, if provisioned then Provisioned else Provisioning) == Attempt(v, provisioned)
  {
    hide Transition, Entries, Exits;
    var target := if provisioned then Provisioned else Provisioning;
    var entered := [ConnectingAttempt, target];
    Moves(c, v, v.leaf, target, 2, [ConnectingBackoff], entered);
    ExitsOf([ConnectingBackoff], v);
    EntriesOf(c, entered, v.(timer := false, leaf := target));
  }

  /** Siblings: the leaf is left and the target entered. */
  lemma SwapsLeaf(c: Config, v: View, target: State)
    requires Owned(v)
    requires (v.leaf, target) == (Provisioned, Provisioning) || (v.leaf, target) == (Provisioning, Provisioned)
          || (v.leaf, target) == (ConnectedReady, ConnectedPaused)
          || (v.leaf, target) == (ConnectedPaused, ConnectedReady)
    ensures Transition(c, v, v.leaf, target) == Entry(c, target, v.(leaf := target))
  {
    hide Transition, Entries, Exits;
    var top := |Path(v.leaf)| - 1;
    Moves(c, v, v.leaf, target, top, [v.leaf], [target]);
    ExitsOf([v.leaf], v);
    EntriesOf(c, [target], v.(leaf := target));
  }

  lemma Connects(c: Config, v: View)
    requires Owned(v) && v.leaf == Provisioned
    ensures Transition(c, v, v.leaf, Connected) == Publish(v.(leaf := ConnectedReady), [SayConnected])
  {
    hide Transition, Entries, Exits;
    var left, entered := [Connecting, ConnectingAttempt, Provisioned], [Connected, ConnectedReady];
    Moves(c, v, v.leaf, Connected, 1, left, entered);
    ExitsOf(left, v);
    EntriesOf(c, entered, v.(leaf := ConnectedReady));
  }

  // ---- The module ----

  class CloudModule {
    const c: Config
    var current: State
    var online: bool
    var provisioning: bool
    var attempts: UInt32
    var backoff: UInt32
    var timer: bool
    var outbox: seq<Out>

    ghost function State(): View
      reads this
    {
      View(current, online, provisioning, attempts, backoff, timer, outbox)
    }

    constructor (c: Config)
      ensures this.c == c
      ensures State() == View(Disconnected, false, false, 0, 0, false, [SayDisconnected])
    {
      this.c := c;
      current, online, provisioning, attempts, backoff, timer, outbox := Disconnected, false, false, 0, 0, false, [];
      new;
      EntryAction(Running);
      EntryAction(Disconnected);
    }

    method Send(outs: seq<Out>)
      modifies this`outbox
      ensures State() == Publish(old(State()), outs)
    {
      outbox := outbox + outs;
    }

    /** `calculate_backoff_time`: the formula of the configuration as long as it fits 32 bits, with the
        assertion that it is within the configured maximum. */
    method CalculateBackoffTime() returns (time: UInt32)
      modifies this`outbox
      ensures attempts > 0 && Formula(c, attempts) < U32 ==> time == Formula(c, attempts)
      ensures time == BackoffTime(c, attempts)
      ensures outbox == old(outbox) + if time <= c.max then [] else [BackoffAssertFails]
    {
      hide Power;
      var retries := if attempts == 0 then U32 - 1 else attempts - 1;
      time := c.initial;
      match c.backoffType {
        case Exponential =>
          time := (c.initial * Power(retries)) % U32;
        case Linear =>
          time := (c.initial + retries * c.increment) % U32;
        case Constant =>
      }
      if time > c.max {
        Send([BackoffAssertFails]);
      } else {
        assert outbox + [] == outbox;
      }
    }

    method EntryAction(s: State)
      modifies this
      ensures State() == Entry(c, s, old(State()))
    {
      match s {
        case Disconnected =>
          Send([SayDisconnected]);
        case Connecting =>
          attempts, provisioning := 0, false;
        case ConnectingAttempt =>
          attempts := (attempts + 1) % U32;
        case Provisioned =>
          provisioning := false;
          Send([Connect]);
        case Provisioning =>
          Send([CancelSearch]);
          provisioning := true;
          Send([TriggerProvisioning]);
          assert outbox == old(outbox) + ([CancelSearch] + [TriggerProvisioning]);
        case ConnectingBackoff =>
          backoff := CalculateBackoffTime();
          timer := true;
        case ConnectedReady =>
          Send([SayConnected]);
        case ConnectedPaused =>
          Send([SayDisconnected]);
        case _ =>
      }
    }

    method ExitAction(s: State)
      modifies this`timer, this`outbox
      ensures State() == Exit(s, old(State()))
    {
      match s {
        case ConnectingBackoff =>
          timer := false;
        case Connected =>
          Send([CoapDisconnect, SayDisconnected]);
        case _ =>
      }
    }

    method ExitAll(top: nat)
      requires top <= |Path(current)|
      modifies this`timer, this`outbox
      ensures State() == Exits(Path(current)[top..], old(State()))
    {
      hide Exit, Path;
      var path, i := Path(current), |Path(current)|;
      ghost var left := Exits(path[top..], State());
      assert path[top..i] == path[top..];
      while i > top
        invariant top <= i <= |path|
        invariant Exits(path[top..i], State()) == left
      {
        i := i - 1;
        assert path[top..i + 1][..i - top] == path[top..i];
        ExitAction(path[i]);
      }
    }

    method EnterAll(top: nat)
      requires top <= |Path(current)|
      modifies this
      ensures State() == Entries(c, old(Path(current)[top..]), old(State()))
    {
      hide Entry, Path;
      var path := Path(current);
      ghost var done := Entries(c, path[top..], State());
      for j := top to |path|
        invariant Entries(c, path[j..], State()) == done
      {
        assert path[j..][1..] == path[j + 1..];
        EntryAction(path[j]);
      }
    }

    method SetState(executing: State, target: State)
      requires Path(executing) <= Path(current)
      modifies this
      ensures State() == Transition(c, old(State()), executing, target)
    {
      hide Entries, Exits, Path, LeafOf;
      var top := Smf.Top(Path(executing), Path(target));
      ExitAll(top);
      current := LeafOf(target);
      EnterAll(top);
    }

    /** `network_connection_status_retain`. */
    method RetainNetworkStatus(msg: Msg)
      modifies this`online
      ensures State() == Retain(old(State()), msg)
    {
      if msg.NetworkConnected? || msg.NetworkDisconnected? {
        online := msg.NetworkConnected?;
      }
    }

    /** What a handler must do when it stops; when it does not, it has changed nothing. `v` is the state
        before the network status was retained. */
    twostate predicate Ran(v: View, msg: Msg, stop: bool, when: bool)
      reads this
    {
      && (stop <==> when)
      && State() == if when then Step(c, v, msg) else old(State())
    }

    ghost predicate Retained(v: View, msg: Msg)
      reads this
    {
      && Owned(State())
      && State() == Retain(v, msg)
    }

    method DisconnectedRun(ghost v: View, msg: Msg) returns (stop: bool)
      requires Retained(v, msg) && current == Disconnected
      modifies this
      ensures Ran(v, msg, stop, msg == NetworkConnected)
    {
      hide Transition, Path;
      if msg.NetworkConnected? {
        BeginsConnecting(c, State());
        SetState(Disconnected, Connecting);
        return true;
      }
      return false;
    }

    method ConnectingRun(ghost v: View, msg: Msg) returns (stop: bool)
      requires Retained(v, msg) && (current == Provisioned || current == ConnectingBackoff || current == Provisioning)
      requires current == Provisioning ==> !msg.NetworkDisconnected?
      modifies this
      ensures Ran(v, msg, stop, msg == NetworkDisconnected)
    {
      hide Transition, Path;
      if msg.NetworkDisconnected? {
        LosesNetwork(c, State(), Connecting);
        SetState(Connecting, Disconnected);
        return true;
      }
      return false;
    }

    method ProvisionedRun(ghost v: View, msg: Msg) returns (stop: bool)
      requires Retained(v, msg) && current == Provisioned
      modifies this
      ensures Ran(v, msg, stop, msg in {Priv(NotAuthenticated), Priv(ConnectionSuccess), Priv(ConnectionFailed)})
    {
      hide Transition, Path;
      match msg {
        case Priv(NotAuthenticated) =>
          SwapsLeaf(c, State(), Provisioning);
          SetState(current, Provisioning);
          return true;
        case Priv(ConnectionSuccess) =>
          Connects(c, State());
          SetState(current, Connected);
          return true;
        case Priv(ConnectionFailed) =>
          BacksOff(c, State());
          SetState(current, ConnectingBackoff);
          return true;
        case _ =>
          return false;
      }
    }

    /** Network changes end here: provisioning takes the device offline and online by itself. */
    method ProvisioningRun(ghost v: View, msg: Msg) returns (stop: bool)
      requires Retained(v, msg) && current == Provisioning
      modifies this
      ensures Ran(v, msg, stop,
                  msg in {Priv(ProvisioningFinished), Priv(ProvisioningFailed), NetworkConnected, NetworkDisconnected})
    {
      hide Transition, Path;
      match msg {
        case Priv(ProvisioningFinished) =>
          SwapsLeaf(c, State(), Provisioned);
          SetState(current, Provisioned);
          return true;
        case Priv(ProvisioningFailed) =>
          if online {
            BacksOff(c, State());
            SetState(current, ConnectingBackoff);
          } else {
            LosesNetwork(c, State(), Provisioning);
            SetState(current, Disconnected);
          }
          return true;
        case NetworkConnected =>
          return true;
        case NetworkDisconnected =>
          return true;
        case _ =>
          return false;
      }
    }

    method ConnectingBackoffRun(ghost v: View, msg: Msg) returns (stop: bool)
      requires Retained(v, msg) && current == ConnectingBackoff
      modifies this
      ensures Ran(v, msg, stop, msg == Priv(BackoffExpired))
    {
      hide Transition, Path;
      if msg == Priv(BackoffExpired) {
        TriesAgain(c, State(), !provisioning);
        if !provisioning {
          SetState(current, Provisioned);
        } else {
          SetState(current, Provisioning);
        }
        return true;
      }
      return false;
    }

    /** The consumer of storage batches; the batch itself is read by `CloudBatch.HandleBatchAvailable`. */
    method HandleStorageChannelMessage(msg: StorageSpec.StorageMsg)
      requires current == ConnectedReady
      modifies this`outbox
      ensures State() == StepStored(old(State()), msg)
    {
      match msg {
        case BatchAvailable(id, _, more) =>
          Send([ReadBatch]);
          if more {
            Send([Out.Say(StorageSpec.BatchRequest(id))]);
          } else {
            Send([Out.Say(StorageSpec.BatchClose(id))]);
          }
          assert outbox == old(outbox) + ([ReadBatch] + SayAll(Drain.Answer(msg)));
        case BatchEmpty(id) =>
          Send([Out.Say(StorageSpec.BatchClose(id))]);
        case BatchError(id) =>
          Send([Out.Say(StorageSpec.BatchClose(id))]);
        case _ =>
          assert outbox + [] == outbox;
      }
    }

    /** Every private, network, storage and cloud message ends here. */
    method ConnectedReadyRun(ghost v: View, msg: Msg) returns (stop: bool)
      requires Retained(v, msg) && current == ConnectedReady
      modifies this
      ensures Ran(v, msg, stop, msg != Other)
    {
      hide Transition, Path, StepStored;
      match msg {
        case Priv(SendRequestFailed) =>
          GivesUp(c, State(), Connecting);
          SetState(current, Connecting);
        case Priv(_) =>
        case NetworkDisconnected =>
          SwapsLeaf(c, State(), ConnectedPaused);
          SetState(current, ConnectedPaused);
        case NetworkConnected =>
        case NetworkOther =>
        case Stored(storage) =>
          HandleStorageChannelMessage(storage);
        case CloudWork(failed) =>
          if failed {
            Send([SayRequestFailed]);
          }
        case ProvisioningRequest =>
          GivesUp(c, State(), Provisioning);
          SetState(current, Provisioning);
        case Other =>
          return false;
      }
      return true;
    }

    method ConnectedPausedRun(ghost v: View, msg: Msg) returns (stop: bool)
      requires Retained(v, msg) && current == ConnectedPaused
      modifies this
      ensures Ran(v, msg, stop, msg == NetworkConnected
                || (msg.Stored? && (msg.storage.BatchAvailable? || msg.storage.BatchEmpty? || msg.storage.BatchError?
                                    || msg.storage.BatchBusy?)))
    {
      hide Transition, Path;
      match msg {
        case NetworkConnected =>
          SwapsLeaf(c, State(), ConnectedReady);
          SetState(current, ConnectedReady);
          return true;
        case Stored(BatchAvailable(id, _, _)) =>
          Send([Out.Say(StorageSpec.BatchClose(id))]);
          return true;
        case Stored(BatchEmpty(id)) =>
          Send([Out.Say(StorageSpec.BatchClose(id))]);
          return true;
        case Stored(BatchError(id)) =>
          Send([Out.Say(StorageSpec.BatchClose(id))]);
          return true;
        case Stored(BatchBusy(_)) =>
          return true;
        case _ =>
          return false;
      }
    }

    /** One pass of the thread's loop: the network status, then the leaf handler, then its ancestors until
        one stops. The whole pass does what the flat table says. */
    method Process(msg: Msg)
      requires Owned(State())
      modifies this
      ensures State() == Step(c, old(State()), msg)
    {
      ghost var v := State();
      var stop;
      hide FirstAttempt, Attempt, BackOff, GoDisconnected, Leave, StepStored, StepPrivate;
      RetainNetworkStatus(msg);
      match current {
        case Disconnected =>
          stop := DisconnectedRun(v, msg);
        case Provisioned =>
          stop := ProvisionedRun(v, msg);
          if !stop {
            stop := ConnectingRun(v, msg);
          }
        case Provisioning =>
          stop := ProvisioningRun(v, msg);
          if !stop {
            stop := ConnectingRun(v, msg);
          }
        case ConnectingBackoff =>
          stop := ConnectingBackoffRun(v, msg);
          if !stop {
            stop := ConnectingRun(v, msg);
          }
        case ConnectedReady =>
          stop := ConnectedReadyRun(v, msg);
        case ConnectedPaused =>
          stop := ConnectedPausedRun(v, msg);
      }
      if !stop {
        StepIgnores(c, v, msg);
      }
    }
  }

  predicate EndsBatch(msg: Msg) {
    msg.Stored? && (msg.storage.BatchAvailable? || msg.storage.BatchEmpty? || msg.storage.BatchError?)
  }

  /** The messages that no handler on the way from `leaf` takes. */
  predicate Ignored(leaf: State, msg: Msg) {
    match leaf
    case Disconnected => msg != NetworkConnected
    case Provisioned =>
      msg !in {Priv(NotAuthenticated), Priv(ConnectionSuccess), Priv(ConnectionFailed), NetworkDisconnected}
    case Provisioning =>
      msg !in {Priv(ProvisioningFinished), Priv(ProvisioningFailed), NetworkConnected, NetworkDisconnected}
    case ConnectingBackoff => msg !in {Priv(BackoffExpired), NetworkDisconnected}
    case ConnectedReady => msg == Other
    case _ => msg != NetworkConnected && !EndsBatch(msg)
  }

  lemma StepIgnores(c: Config, v: View, msg: Msg)
    requires IsLeaf(v.leaf) && Ignored(v.leaf, msg)
    ensures Step(c, v, msg) == Retain(v, msg)
  {
  }
}
