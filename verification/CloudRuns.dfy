/** Whole runs of the cloud machine: what it says of the connection, where it may idle, and how it backs
    off. */
module CloudRuns {
  import opened Common
  import opened CloudSpec
  import Drain
  import StorageSpec

  function After(c: Config, v: View, msgs: seq<Msg>): View {
    if msgs == [] then v else Step(c, After(c, v, msgs[..|msgs| - 1]), msgs[|msgs| - 1])
  }

  /** The module at start-up. */
  function Start(): View {
    View(Disconnected, false, false, 0, 0, false, [SayDisconnected])
  }

  /** The last word on the connection that the module has published. */
  function LastSaid(outs: seq<Out>): Option<Out> {
    if outs == [] then None
    else
      var last := outs[|outs| - 1];
      if last == SayConnected || last == SayDisconnected then Some(last) else LastSaid(outs[..|outs| - 1])
  }

  /** The last published status is CLOUD_CONNECTED exactly in CONNECTED_READY; where the module idles, the
      last network status it has processed is disconnected; the backoff timer runs only while backing off. */
  ghost predicate Inv(v: View) {
    && IsLeaf(v.leaf)
    && LastSaid(v.outs) == Some(if v.leaf == ConnectedReady then SayConnected else SayDisconnected)
    && (v.leaf == Disconnected || v.leaf == ConnectedPaused ==> !v.online)
    && (v.timer <==> v.leaf == ConnectingBackoff)
  }

  lemma {:induction false} SaidLast(outs: seq<Out>, more: seq<Out>)
    ensures LastSaid(outs + more) == if LastSaid(more).Some? then LastSaid(more) else LastSaid(outs)
  {
    if more == [] {
      assert outs + more == outs;
    } else {
      SaidLast(outs, more[..|more| - 1]);
      assert (outs + more)[..|outs + more| - 1] == outs + more[..|more| - 1];
    }
  }

  /** What the pieces of one step say. */
  lemma SaidOnce(outs: seq<Out>)
    ensures LastSaid(outs + [SayConnected]) == Some(SayConnected)
    ensures LastSaid(outs + [SayDisconnected]) == Some(SayDisconnected)
    ensures LastSaid(outs + [CoapDisconnect, SayDisconnected]) == Some(SayDisconnected)
    ensures LastSaid(outs + [Connect]) == LastSaid(outs)
    ensures LastSaid(outs + [CancelSearch, TriggerProvisioning]) == LastSaid(outs)
    ensures LastSaid(outs + [SayRequestFailed]) == LastSaid(outs)
    ensures LastSaid(outs + [BackoffAssertFails]) == LastSaid(outs)
    ensures outs + [] == outs
  {
    assert (outs + [SayConnected])[|outs|] == SayConnected;
    assert (outs + [CancelSearch, TriggerProvisioning]) == outs + [CancelSearch] + [TriggerProvisioning];
    assert forall o :: (outs + [o])[..|outs|] == outs;
  }

  lemma {:induction false} StorageSaysNothing(outs: seq<Out>)
    requires forall o :: o in outs ==> o.ReadBatch? || o.Say?
    ensures LastSaid(outs) == None
  {
    if outs != [] {
      assert outs[|outs| - 1] in outs;
      StorageSaysNothing(outs[..|outs| - 1]);
    }
  }

  lemma PiecesSay(c: Config, v: View, provisioned: bool)
    ensures LastSaid(Attempt(v, provisioned).outs) == LastSaid(v.outs)
    ensures LastSaid(FirstAttempt(v, provisioned).outs) == LastSaid(v.outs)
    ensures LastSaid(GoDisconnected(v).outs) == Some(SayDisconnected)
    ensures LastSaid(Leave(v).outs) == Some(SayDisconnected)
  {
    SaidOnce(v.outs);
    hide LastSaid;
  }

  lemma StoredKeepsInv(v: View, msg: StorageSpec.StorageMsg)
    requires Inv(v)
    ensures Inv(StepStored(v, msg))
  {
    hide LastSaid, Drain.Answer;
    var more := (if msg.BatchAvailable? then [ReadBatch] else []) + SayAll(Drain.Answer(msg));
    StorageSaysNothing(more);
    SaidLast(v.outs, more);
    if msg.BatchAvailable? || msg.BatchEmpty? || msg.BatchError? {
      var close := [Say(StorageSpec.BatchClose(msg.id))];
      StorageSaysNothing(close);
      SaidLast(v.outs, close);
    }
  }

  lemma PrivateKeepsInv(c: Config, v: View, msg: Private)
    requires Inv(v)
    ensures Inv(StepPrivate(c, v, msg))
  {
    hide LastSaid, BackoffTime;
    SaidOnce(v.outs);
    PiecesSay(c, v, !v.provisioning);
    PiecesSay(c, Leave(v), true);
  }

  lemma OtherKeepsInv(c: Config, v0: View, msg: Msg)
    requires Inv(v0) && !msg.Priv? && !msg.Stored?
    ensures Inv(Step(c, v0, msg))
  {
    hide LastSaid;
    var v := Retain(v0, msg);
    SaidOnce(v.outs);
    PiecesSay(c, v, true);
    PiecesSay(c, Leave(v), false);
  }

  lemma StepKeepsInv(c: Config, v: View, msg: Msg)
    requires Inv(v)
    ensures Inv(Step(c, v, msg))
  {
    if msg.Priv? {
      assert Step(c, v, msg) == StepPrivate(c, v, msg.msg);
      PrivateKeepsInv(c, v, msg.msg);
    } else if msg.Stored? {
      assert Step(c, v, msg) == StepStored(v, msg.storage);
      StoredKeepsInv(v, msg.storage);
    } else {
      OtherKeepsInv(c, v, msg);
    }
  }

  lemma {:induction false} AlwaysInv(c: Config, v: View, msgs: seq<Msg>)
    requires Inv(v)
    ensures Inv(After(c, v, msgs))
  {
    if msgs != [] {
      AlwaysInv(c, v, msgs[..|msgs| - 1]);
      StepKeepsInv(c, After(c, v, msgs[..|msgs| - 1]), msgs[|msgs| - 1]);
      hide Inv, Step;
    }
  }

  lemma StartOk()
    ensures Inv(Start())
  {
    assert LastSaid([SayDisconnected]) == Some(SayDisconnected);
  }

  /** So the invariant holds in every reachable state. */
  lemma ReachableInv(c: Config, msgs: seq<Msg>)
    ensures Inv(After(c, Start(), msgs))
  {
    StartOk();
    AlwaysInv(c, Start(), msgs);
  }

  // ---- Backing off ----

  predicate IsConnecting(leaf: State) {
    leaf == Provisioned || leaf == Provisioning || leaf == ConnectingBackoff
  }

  /** How often the module has backed off since it last began to connect. */
  function Backoffs(c: Config, v: View, msgs: seq<Msg>): nat {
    if msgs == [] then 0
    else
      var before := After(c, v, msgs[..|msgs| - 1]);
      var w := After(c, v, msgs);
      if !IsConnecting(w.leaf) || !IsConnecting(before.leaf) then 0
      else
        Backoffs(c, v, msgs[..|msgs| - 1])
        + if w.leaf == ConnectingBackoff && before.leaf != ConnectingBackoff then 1 else 0
  }

  lemma StoredKeepsCounts(v: View, msg: StorageSpec.StorageMsg)
    ensures var w := StepStored(v, msg); w == v.(outs := w.outs)
  {
  }

  lemma PrivateCounts(c: Config, v: View, msg: Private)
    requires IsLeaf(v.leaf)
    ensures Counted(c, v, StepPrivate(c, v, msg))
  {
    hide BackoffTime;
  }

  /** How a step counts attempts. */
  ghost predicate Counted(c: Config, v: View, w: View) {
    && IsLeaf(w.leaf)
    && (IsConnecting(w.leaf) && !IsConnecting(v.leaf) ==> w.leaf != ConnectingBackoff && w.attempts == 1)
    && (IsConnecting(w.leaf) && IsConnecting(v.leaf) ==>
          w.attempts
          == if v.leaf == ConnectingBackoff && w.leaf != ConnectingBackoff then (v.attempts + 1) % U32 else v.attempts)
    && (w.leaf == ConnectingBackoff ==>
          w.backoff == if v.leaf == ConnectingBackoff then v.backoff else BackoffTime(c, v.attempts))
  }

  lemma StepCounts(c: Config, v0: View, msg: Msg)
    requires IsLeaf(v0.leaf)
    ensures Counted(c, v0, Step(c, v0, msg))
  {
    hide BackoffTime, StepStored, StepPrivate;
    var v := Retain(v0, msg);
    if msg.Stored? {
      StoredKeepsCounts(v, msg.storage);
    } else if msg.Priv? {
      PrivateCounts(c, v, msg.msg);
    }
  }

  /** What is claimed of a state after `k` backoffs. */
  ghost predicate AfterBackoffs(c: Config, w: View, k: nat) {
    && IsLeaf(w.leaf)
    && (w.leaf == ConnectingBackoff ==> k >= 1 && w.attempts == k % U32 && w.backoff == BackoffTime(c, k % U32))
    && (w.leaf == Provisioned || w.leaf == Provisioning ==> w.attempts == (k + 1) % U32)
  }

  lemma CountsOn(n: nat)
    ensures (n % U32 + 1) % U32 == (n + 1) % U32
  {
  }

  lemma CountedOn(c: Config, v: View, w: View, k: nat, next: nat)
    requires AfterBackoffs(c, v, k) && Counted(c, v, w)
    requires next == if !IsConnecting(w.leaf) || !IsConnecting(v.leaf) then 0
                     else k + if w.leaf == ConnectingBackoff && v.leaf != ConnectingBackoff then 1 else 0
    ensures AfterBackoffs(c, w, next)
  {
    hide BackoffTime;
    CountsOn(k);
  }

  lemma {:induction false} LeafAfter(c: Config, v: View, msgs: seq<Msg>)
    requires IsLeaf(v.leaf)
    ensures IsLeaf(After(c, v, msgs).leaf)
  {
    if msgs != [] {
      LeafAfter(c, v, msgs[..|msgs| - 1]);
      StepCounts(c, After(c, v, msgs[..|msgs| - 1]), msgs[|msgs| - 1]);
      hide Step;
    }
  }

  /** On the k-th backoff since it began to connect, the attempt counter is k, in 32 bits, and the time is
      what the configuration's formula gives for k; in an attempt the counter is one more than the backoffs
      so far. */
  lemma {:induction false} BackoffsCounted(c: Config, v: View, msgs: seq<Msg>)
    requires IsLeaf(v.leaf) && !IsConnecting(v.leaf)
    ensures AfterBackoffs(c, After(c, v, msgs), Backoffs(c, v, msgs))
  {
    hide Step, Counted, BackoffTime;
    if msgs == [] {
      assert After(c, v, msgs) == v;
    } else {
      hide AfterBackoffs;
      var before := msgs[..|msgs| - 1];
      BackoffsCounted(c, v, before);
      LeafAfter(c, v, before);
      StepCounts(c, After(c, v, before), msgs[|msgs| - 1]);
      CountedOn(c, After(c, v, before), After(c, v, msgs), Backoffs(c, v, before), Backoffs(c, v, msgs));
    }
  }

  lemma FormulaGrows(c: Config, k: nat)
    requires 1 <= k
    ensures Formula(c, k) <= Formula(c, k + 1)
    ensures Formula(c, k) < U32 <= Formula(c, k + 1) ==> Formula(c, k + 1) - U32 < Formula(c, k)
  {
    match c.backoffType
    case Exponential =>
      assert Power(k) == 2 * Power(k - 1);
      assert c.initial * Power(k) == 2 * (c.initial * Power(k - 1));
    case Linear =>
      assert k * c.increment == (k - 1) * c.increment + c.increment;
    case Constant =>
  }

  /** As long as the formula fits in 32 bits the backoff equals it; the next backoff is at least as long
      exactly when it fits too, for the time is not clamped. */
  lemma NondecreasingIff(c: Config, k: nat)
    requires 1 <= k < U32 - 1 && Formula(c, k) < U32
    ensures BackoffTime(c, k) == Formula(c, k)
    ensures BackoffTime(c, k + 1) >= BackoffTime(c, k) <==> Formula(c, k + 1) < U32
  {
    var f, g := Formula(c, k), Formula(c, k + 1);
    FormulaGrows(c, k);
    hide Formula;
    assert f % U32 == f;
    assert g % U32 == if g < U32 then g else g - U32;
  }

  // ---- The configured maximum ----

  /** The formula gives the initial time for ever. */
  predicate NeverGrows(c: Config) {
    match c.backoffType
    case Exponential => c.initial == 0
    case Linear => c.increment == 0
    case Constant => true
  }

  predicate WithinMax(c: Config) {
    c.initial <= c.max && NeverGrows(c)
  }

  lemma StaysInitial(c: Config, k: nat)
    requires NeverGrows(c) && k >= 1
    ensures Formula(c, k) == c.initial
  {
  }

  /** A formula that grows goes past the maximum, and at first by less than another maximum or increment. */
  lemma FirstPastMax(c: Config, from: nat) returns (k: nat)
    requires !NeverGrows(c) && 1 <= from <= Formula(c, from) + 1 && Formula(c, from) <= c.max
    ensures from < k <= c.max + 2 && c.max < Formula(c, k)
    ensures Formula(c, k) <= c.max + (if c.backoffType.Exponential? then c.max else c.increment)
    decreases c.max - Formula(c, from)
  {
    FormulaStep(c, from);
    if Formula(c, from + 1) > c.max {
      k := from + 1;
    } else {
      k := FirstPastMax(c, from + 1);
    }
  }

  lemma FormulaStep(c: Config, k: nat)
    requires k >= 1
    ensures c.backoffType.Exponential? ==> Formula(c, k + 1) == 2 * Formula(c, k)
    ensures c.backoffType.Linear? ==> Formula(c, k + 1) == Formula(c, k) + c.increment
    ensures !NeverGrows(c) ==> Formula(c, k + 1) > Formula(c, k)
  {
    match c.backoffType
    case Exponential =>
      assert Power(k) == 2 * Power(k - 1);
      assert c.initial * Power(k) == 2 * (c.initial * Power(k - 1));
      if c.initial > 0 {
        assert c.initial * Power(k - 1) >= 1 * Power(k - 1);
      }
    case Linear =>
      assert k * c.increment == (k - 1) * c.increment + c.increment;
    case Constant =>
  }

  lemma FormulaStarts(c: Config)
    ensures Formula(c, 1) == c.initial
  {
  }

  /** Every backoff of the formula is within the maximum exactly if the first is and the formula never
      grows. */
  lemma FormulaWithinMaxIff(c: Config)
    ensures (forall k :: k >= 1 ==> Formula(c, k) <= c.max) <==> WithinMax(c)
  {
    FormulaStarts(c);
    hide Formula;
    if WithinMax(c) {
      forall k | k >= 1
        ensures Formula(c, k) <= c.max
      {
        StaysInitial(c, k);
      }
    } else if c.initial <= c.max {
      var k := FirstPastMax(c, 1);
    }
  }

  /** Two failed messages at a time, a run reaches any backoff. */
  function Failing(k: nat): seq<Msg>
    requires k >= 1
  {
    if k == 1 then [NetworkConnected, Priv(ConnectionFailed)]
    else Failing(k - 1) + [Priv(BackoffExpired), Priv(ConnectionFailed)]
  }

  lemma AfterTwo(c: Config, v: View, msgs: seq<Msg>, a: Msg, b: Msg)
    ensures After(c, v, msgs + [a, b]) == Step(c, Step(c, After(c, v, msgs), a), b)
  {
    var all := msgs + [a, b];
    assert all[..|all| - 1] == msgs + [a] && (msgs + [a])[..|msgs|] == msgs;
    hide Step;
  }

  /** Backing off for the `k`-th time, before any provisioning; a time over the maximum has been noticed. */
  ghost predicate BacksOff(c: Config, w: View, k: nat) {
    && w.leaf == ConnectingBackoff && w.attempts == k && !w.provisioning
    && (BackoffTime(c, w.attempts) > c.max ==> BackoffAssertFails in w.outs)
  }

  lemma FirstFailure(c: Config)
    ensures BacksOff(c, Step(c, Step(c, Start(), NetworkConnected), Priv(ConnectionFailed)), 1)
  {
    hide BackoffTime;
  }

  lemma FailsAgain(c: Config, v: View, k: nat)
    requires k < U32 - 1 && BacksOff(c, v, k)
    ensures BacksOff(c, Step(c, Step(c, v, Priv(BackoffExpired)), Priv(ConnectionFailed)), k + 1)
  {
    hide BackoffTime;
    var w := Step(c, v, Priv(BackoffExpired));
    assert w == Attempt(v, true) && w.attempts == k + 1;
    assert Step(c, w, Priv(ConnectionFailed)) == BackOff(c, w);
  }

  lemma {:induction false} FailingReaches(c: Config, k: nat)
    requires 1 <= k < U32
    ensures BacksOff(c, After(c, Start(), Failing(k)), k)
  {
    hide Step, BackoffTime, BacksOff;
    if k == 1 {
      AfterTwo(c, Start(), [], NetworkConnected, Priv(ConnectionFailed));
      assert [] + [NetworkConnected, Priv(ConnectionFailed)] == Failing(1);
      FirstFailure(c);
    } else {
      FailingReaches(c, k - 1);
      AfterTwo(c, Start(), Failing(k - 1), Priv(BackoffExpired), Priv(ConnectionFailed));
      FailsAgain(c, After(c, Start(), Failing(k - 1)), k - 1);
    }
  }

  lemma PrivateAsserts(c: Config, v: View, msg: Private)
    requires BackoffAssertFails !in v.outs && BackoffTime(c, v.attempts) <= c.max
    ensures BackoffAssertFails !in StepPrivate(c, v, msg).outs
  {
    hide BackoffTime;
  }

  lemma StoredAsserts(v: View, msg: StorageSpec.StorageMsg)
    requires BackoffAssertFails !in v.outs
    ensures BackoffAssertFails !in StepStored(v, msg).outs
  {
    hide Drain.Answer;
  }

  lemma StepAsserts(c: Config, v: View, msg: Msg)
    requires BackoffAssertFails !in v.outs && BackoffTime(c, v.attempts) <= c.max
    ensures BackoffAssertFails !in Step(c, v, msg).outs
  {
    hide BackoffTime, StepPrivate, StepStored;
    if msg.Priv? {
      assert Step(c, v, msg) == StepPrivate(c, Retain(v, msg), msg.msg);
      PrivateAsserts(c, Retain(v, msg), msg.msg);
    } else if msg.Stored? {
      assert Step(c, v, msg) == StepStored(Retain(v, msg), msg.storage);
      StoredAsserts(Retain(v, msg), msg.storage);
    }
  }

  lemma {:induction false} NeverAsserts(c: Config, msgs: seq<Msg>)
    requires WithinMax(c)
    ensures BackoffAssertFails !in After(c, Start(), msgs).outs
  {
    if msgs != [] {
      var before := msgs[..|msgs| - 1];
      NeverAsserts(c, before);
      var mid := After(c, Start(), before);
      StaysInitial(c, if mid.attempts == 0 then U32 else mid.attempts);
      hide Formula;
      StepAsserts(c, mid, msgs[|msgs| - 1]);
    }
  }

  /** In no run from start-up does the backoff time fail its assertion, exactly if the first time is within
      the maximum and the formula never grows. The options are integers of the configuration system. */
  lemma MaximumKeptIff(c: Config)
    requires c.initial < 0x8000_0000 && c.increment < 0x8000_0000 && c.max < 0x8000_0000
    ensures (forall msgs :: BackoffAssertFails !in After(c, Start(), msgs).outs) <==> WithinMax(c)
  {
    if WithinMax(c) {
      forall msgs
        ensures BackoffAssertFails !in After(c, Start(), msgs).outs
      {
        NeverAsserts(c, msgs);
      }
    } else {
      FormulaStarts(c);
      var k := 1;
      if c.initial <= c.max {
        k := FirstPastMax(c, 1);
      }
      hide Formula;
      assert c.max < Formula(c, k) < U32 && k < U32;
      assert BackoffTime(c, k) == Formula(c, k);
      FailingReaches(c, k);
      assert BackoffAssertFails in After(c, Start(), Failing(k)).outs;
    }
  }

  /** The default configuration reaches its maximum of an hour on the 60th backoff and exceeds it on the
      next. */
  lemma DefaultExceedsMax()
    ensures var c := Config(Linear, 60, 60, 3600);
            && Formula(c, 60) == c.max && Formula(c, 61) == 3660
            && BackoffAssertFails in After(c, Start(), Failing(61)).outs
  {
    var c := Config(Linear, 60, 60, 3600);
    assert BackoffTime(c, 61) == 3660;
    FailingReaches(c, 61);
  }
}
