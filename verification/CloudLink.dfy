/** The cloud connection as its users know it: whole runs of the machine are a simple fold over the messages,
    and say exactly what its changes demand. */
module CloudLink {
  import opened Common
  import opened CloudSpec
  import opened CloudRuns
  import Drain
  import StorageSpec

  /** No connection wanted; an attempt to connect or to provision; waiting to try the same again; connected; and
      connected to a cloud that the network does not reach. */
  datatype Link = Down | Trying(provisioning: bool) | Waiting(provisioning: bool) | Up | Held

  datatype Summary = Summary(online: bool, link: Link)

  function LinkOf(v: View): Link {
    match v.leaf
    case Provisioned => Trying(false)
    case Provisioning => Trying(true)
    case ConnectingBackoff => Waiting(v.provisioning)
    case ConnectedReady => Up
    case ConnectedPaused => Held
    case _ => Down
  }

  function Summarize(v: View): Summary {
    Summary(v.online, LinkOf(v))
  }

  /** What a message does to the link. `online` already takes it into account. */
  function NextLink(online: bool, link: Link, msg: Msg): Link {
    match msg
    case NetworkConnected => if link == Down then Trying(false) else if link == Held then Up else link
    case NetworkDisconnected =>
      if link == Up then Held else if link == Trying(false) || link.Waiting? then Down else link
    case ProvisioningRequest => if link == Up then Trying(true) else link
    case Priv(ConnectionSuccess) => if link == Trying(false) then Up else link
    case Priv(ConnectionFailed) => if link == Trying(false) then Waiting(false) else link
    case Priv(NotAuthenticated) => if link == Trying(false) then Trying(true) else link
    case Priv(ProvisioningFinished) => if link == Trying(true) then Trying(false) else link
    case Priv(ProvisioningFailed) => if link != Trying(true) then link else if online then Waiting(true) else Down
    case Priv(BackoffExpired) => if link.Waiting? then Trying(link.provisioning) else link
    case Priv(SendRequestFailed) => if link == Up then Trying(false) else link
    case _ => link
  }

  function Follow(s: Summary, msg: Msg): Summary {
    var online := if msg.NetworkConnected? then true else if msg.NetworkDisconnected? then false else s.online;
    Summary(online, NextLink(online, s.link, msg))
  }

  function FollowAll(s: Summary, msgs: seq<Msg>): Summary {
    if msgs == [] then s else Follow(FollowAll(s, msgs[..|msgs| - 1]), msgs[|msgs| - 1])
  }

  /** What a change of the link must say and ask for. */
  function Announced(from: Link, to: Link): seq<Out> {
    if from == to then []
    else
      (if from == Up && to.Trying? then [CoapDisconnect, SayDisconnected] else [])
      + match to
        case Down => [SayDisconnected]
        case Trying(provisioning) => if provisioning then [CancelSearch, TriggerProvisioning] else [Connect]
        case Waiting(_) => []
        case Up => [SayConnected]
        case Held => [SayDisconnected]
  }

  /** In an attempt the flag says which. */
  ghost predicate FlagOk(v: View) {
    && IsLeaf(v.leaf)
    && (v.leaf == Provisioned ==> !v.provisioning)
    && (v.leaf == Provisioning ==> v.provisioning)
  }

  lemma PrivateFollows(c: Config, v: View, msg: Private)
    requires FlagOk(v)
    ensures var w := StepPrivate(c, v, msg);
            FlagOk(w) && w.online == v.online && LinkOf(w) == NextLink(v.online, LinkOf(v), Priv(msg))
  {
    hide BackoffTime;
  }

  lemma StepFollows(c: Config, v: View, msg: Msg)
    requires FlagOk(v)
    ensures FlagOk(Step(c, v, msg)) && Summarize(Step(c, v, msg)) == Follow(Summarize(v), msg)
  {
    hide StepStored, StepPrivate;
    if msg.Priv? {
      PrivateFollows(c, Retain(v, msg), msg.msg);
      assert Step(c, v, msg) == StepPrivate(c, Retain(v, msg), msg.msg);
    } else if msg.Stored? {
      StoredKeepsCounts(Retain(v, msg), msg.storage);
      assert Step(c, v, msg) == StepStored(Retain(v, msg), msg.storage);
    }
  }

  /** In every reachable state the link is what the messages so far add up to. */
  lemma {:induction false} RunFollows(c: Config, msgs: seq<Msg>)
    ensures var w := After(c, Start(), msgs);
            FlagOk(w) && Summarize(w) == FollowAll(Summary(false, Down), msgs)
  {
    if msgs != [] {
      RunFollows(c, msgs[..|msgs| - 1]);
      StepFollows(c, After(c, Start(), msgs[..|msgs| - 1]), msgs[|msgs| - 1]);
      hide Step, Follow, FlagOk;
    }
  }

  // ---- What it says ----

  /** The part of the module's output that is about the connection. */
  function OfLink(outs: seq<Out>): seq<Out> {
    if outs == [] then []
    else
      var last := outs[|outs| - 1];
      OfLink(outs[..|outs| - 1])
      + if last.ReadBatch? || last.Say? || last.SayRequestFailed? || last.BackoffAssertFails? then [] else [last]
  }

  lemma {:induction false} OfLinkConcat(a: seq<Out>, b: seq<Out>)
    ensures OfLink(a + b) == OfLink(a) + OfLink(b)
  {
    if b == [] {
      assert a + b == a;
    } else {
      OfLinkConcat(a, b[..|b| - 1]);
      assert (a + b)[..|a + b| - 1] == a + b[..|b| - 1];
    }
  }

  lemma {:induction false} NothingOfLink(outs: seq<Out>)
    requires forall o :: o in outs ==> o.ReadBatch? || o.Say? || o.SayRequestFailed? || o.BackoffAssertFails?
    ensures OfLink(outs) == []
  {
    if outs != [] {
      assert outs[|outs| - 1] in outs;
      NothingOfLink(outs[..|outs| - 1]);
    }
  }

  lemma {:induction false} AllOfLink(outs: seq<Out>)
    requires forall o :: o in outs ==> !o.ReadBatch? && !o.Say? && !o.SayRequestFailed? && !o.BackoffAssertFails?
    ensures OfLink(outs) == outs
  {
    if outs != [] {
      assert outs[|outs| - 1] in outs;
      AllOfLink(outs[..|outs| - 1]);
    }
  }

  /** Beginning to wait, with a time over the maximum. */
  function Overdue(c: Config, from: Link, w: View): seq<Out> {
    if LinkOf(w).Waiting? && !from.Waiting? && w.backoff > c.max then [BackoffAssertFails] else []
  }

  lemma Regroup(outs: seq<Out>, a: seq<Out>, b: seq<Out>)
    ensures outs + a + b == outs + (a + b) && outs + ([] + a) == outs + a && outs + (a + []) == outs + a
  {
  }

  lemma LeavingAnnounces(v: View, provisioned: bool)
    requires v.leaf == ConnectedReady
    ensures var w := FirstAttempt(Leave(v), provisioned);
            w.outs == v.outs + Announced(Up, LinkOf(w)) && LinkOf(w) == Trying(!provisioned)
  {
    Regroup(v.outs, [CoapDisconnect, SayDisconnected],
            if provisioned then [Connect] else [CancelSearch, TriggerProvisioning]);
  }

  /** Any other change says its part. */
  lemma AttemptAnnounces(v: View, from: Link, provisioned: bool)
    requires from != Up && from != Trying(!provisioned)
    ensures Attempt(v, provisioned).outs == v.outs + Announced(from, Trying(!provisioned))
    ensures FirstAttempt(v, provisioned).outs == v.outs + Announced(from, Trying(!provisioned))
  {
    Regroup(v.outs, if provisioned then [Connect] else [CancelSearch, TriggerProvisioning], []);
  }

  lemma BackOffAnnounces(c: Config, v: View)
    requires FlagOk(v) && LinkOf(v).Trying?
    ensures var w := BackOff(c, v);
            w.outs == v.outs + (Announced(LinkOf(v), LinkOf(w)) + Overdue(c, LinkOf(v), w))
  {
    hide BackoffTime;
    Regroup(v.outs, Overdue(c, LinkOf(v), BackOff(c, v)), []);
  }

  lemma PrivateAnnounces(c: Config, v: View, msg: Private)
    requires FlagOk(v)
    ensures var w := StepPrivate(c, v, msg);
            w.outs == v.outs + (Announced(LinkOf(v), LinkOf(w)) + Overdue(c, LinkOf(v), w))
  {
    hide BackOff, Attempt, FirstAttempt, Leave;
    var w := StepPrivate(c, v, msg);
    Regroup(v.outs, Announced(LinkOf(v), LinkOf(w)), Overdue(c, LinkOf(v), w));
    if v.leaf == ConnectedReady {
      LeavingAnnounces(v, true);
    } else if v.leaf == ConnectingBackoff {
      AttemptAnnounces(v, LinkOf(v), !v.provisioning);
      AttemptLands(v, !v.provisioning);
    } else if v.leaf == Provisioned || v.leaf == Provisioning {
      BackOffAnnounces(c, v);
      BackOffLands(c, v);
    }
  }

  lemma AttemptLands(v: View, provisioned: bool)
    ensures LinkOf(Attempt(v, provisioned)) == LinkOf(FirstAttempt(v, provisioned)) == Trying(!provisioned)
  {
  }

  lemma BackOffLands(c: Config, v: View)
    ensures LinkOf(BackOff(c, v)) == Waiting(v.provisioning)
  {
  }

  lemma NetworkAnnounces(c: Config, v: View, msg: Msg)
    requires FlagOk(v) && (msg.NetworkConnected? || msg.NetworkDisconnected? || msg.ProvisioningRequest?)
    ensures var w := Step(c, v, msg);
            w.outs == v.outs + (Announced(LinkOf(v), LinkOf(w)) + Overdue(c, LinkOf(v), w))
  {
    hide Attempt, FirstAttempt, Leave, StepPrivate, StepStored;
    var v1, w := Retain(v, msg), Step(c, v, msg);
    Regroup(v.outs, Announced(LinkOf(v), LinkOf(w)), Overdue(c, LinkOf(v), w));
    LeavesAndLands(v1);
    AttemptAnnounces(v1, Down, true);
    AttemptLands(v1, true);
  }

  lemma LeavesAndLands(v: View)
    ensures v.leaf == ConnectedReady ==>
              var w := FirstAttempt(Leave(v), false);
              w.outs == v.outs + Announced(Up, LinkOf(w)) && LinkOf(w) == Trying(true)
  {
    if v.leaf == ConnectedReady {
      LeavingAnnounces(v, false);
    }
  }

  /** Every step says what the change of its link demands, and nothing else about the connection; beginning to
      wait too long fails the assertion; a failed request is reported while connected. */
  lemma StepAnnounces(c: Config, v: View, msg: Msg)
    requires FlagOk(v) && !msg.Stored?
    ensures var w := Step(c, v, msg);
            w.outs == v.outs + if msg.CloudWork? then (if msg.failed && LinkOf(v) == Up then [SayRequestFailed] else [])
                               else Announced(LinkOf(v), LinkOf(w)) + Overdue(c, LinkOf(v), w)
  {
    hide StepPrivate, StepStored;
    assert v.outs + [] == v.outs && v.outs + ([] + []) == v.outs;
    if msg.Priv? {
      PrivateAnnounces(c, Retain(v, msg), msg.msg);
      assert Step(c, v, msg) == StepPrivate(c, Retain(v, msg), msg.msg);
    } else if !msg.CloudWork? && !msg.Other? && !msg.NetworkOther? {
      NetworkAnnounces(c, v, msg);
    }
  }

  lemma AnnouncedOnly(from: Link, to: Link)
    ensures forall o :: o in Announced(from, to) ==>
              !o.ReadBatch? && !o.Say? && !o.SayRequestFailed? && !o.BackoffAssertFails?
  {
  }

  lemma AnnouncedIsOfLink(c: Config, from: Link, w: View)
    ensures OfLink(Announced(from, LinkOf(w)) + Overdue(c, from, w)) == Announced(from, LinkOf(w))
  {
    hide OfLink, Announced, LinkOf;
    var said, late := Announced(from, LinkOf(w)), Overdue(c, from, w);
    OfLinkConcat(said, late);
    AnnouncedOnly(from, LinkOf(w));
    AllOfLink(said);
    NothingOfLink(late);
    assert said + [] == said;
  }

  lemma StoredIsNotOfLink(v: View, msg: StorageSpec.StorageMsg)
    ensures OfLink(StepStored(v, msg).outs) == OfLink(v.outs)
  {
    var w := StepStored(v, msg);
    StoredAdds(v, msg);
    NothingOfLink(w.outs[|v.outs|..]);
    OfLinkConcat(v.outs, w.outs[|v.outs|..]);
    assert v.outs + w.outs[|v.outs|..] == w.outs && OfLink(v.outs) + [] == OfLink(v.outs);
    hide OfLink, StepStored;
  }

  lemma StoredAdds(v: View, msg: StorageSpec.StorageMsg)
    ensures var w := StepStored(v, msg);
            v.outs <= w.outs && forall o :: o in w.outs[|v.outs|..] ==> o.ReadBatch? || o.Say?
  {
    hide Drain.Answer;
    var w := StepStored(v, msg);
    var reading: seq<Out> := if msg.BatchAvailable? then [ReadBatch] else [];
    if v.leaf == ConnectedReady {
      assert w.outs == v.outs + (reading + SayAll(Drain.Answer(msg)));
      Tail(v.outs, reading + SayAll(Drain.Answer(msg)));
    } else if w != v {
      Tail(v.outs, [Out.Say(StorageSpec.BatchClose(msg.id))]);
    } else {
      Tail(v.outs, []);
      assert v.outs + [] == v.outs;
    }
  }

  lemma Tail(outs: seq<Out>, more: seq<Out>)
    ensures outs <= outs + more && (outs + more)[|outs|..] == more
  {
  }

  lemma StepSays(c: Config, v: View, msg: Msg)
    requires FlagOk(v)
    ensures OfLink(Step(c, v, msg).outs) == OfLink(v.outs) + Announced(LinkOf(v), LinkOf(Step(c, v, msg)))
  {
    hide StepPrivate, StepStored, OfLink, Announced, Overdue;
    var w := Step(c, v, msg);
    if msg.Stored? {
      StoredIsNotOfLink(Retain(v, msg), msg.storage);
      StoredKeepsCounts(Retain(v, msg), msg.storage);
      assert w == StepStored(Retain(v, msg), msg.storage);
      AnnouncedNothing(LinkOf(v));
    } else {
      StepAnnounces(c, v, msg);
      if msg.CloudWork? {
        var report: seq<Out> := if msg.failed && LinkOf(v) == Up then [SayRequestFailed] else [];
        NothingOfLink(report);
        OfLinkConcat(v.outs, report);
        AnnouncedNothing(LinkOf(v));
      } else {
        OfLinkConcat(v.outs, Announced(LinkOf(v), LinkOf(w)) + Overdue(c, LinkOf(v), w));
        AnnouncedIsOfLink(c, LinkOf(v), w);
      }
    }
  }

  lemma AnnouncedNothing(link: Link)
    ensures Announced(link, link) == []
  {
  }

  /** All that a run must say of the connection, read off the messages. */
  function Story(msgs: seq<Msg>): seq<Out> {
    if msgs == [] then [SayDisconnected]
    else
      var before := FollowAll(Summary(false, Down), msgs[..|msgs| - 1]);
      Story(msgs[..|msgs| - 1]) + Announced(before.link, Follow(before, msgs[|msgs| - 1]).link)
  }

  /** From start-up on, over every run, the module says of the connection exactly that: each attempt connects or
      provisions, each success and each loss is published, in this order. */
  lemma {:induction false} RunSays(c: Config, msgs: seq<Msg>)
    ensures OfLink(After(c, Start(), msgs).outs) == Story(msgs)
  {
    if msgs == [] {
      assert [SayDisconnected][..0] == [];
    } else {
      var before, msg := msgs[..|msgs| - 1], msgs[|msgs| - 1];
      hide Step, Follow, FlagOk, OfLink, Announced;
      RunSays(c, before);
      RunFollows(c, before);
      StepFollows(c, After(c, Start(), before), msg);
      StepSays(c, After(c, Start(), before), msg);
    }
  }
}
