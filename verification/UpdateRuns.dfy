/** The update module over whole runs, and with the application over their shared channel: an image that is
    ordered is applied. */
module UpdateRuns {
  import opened Common
  import opened MainSpec
  import opened MainRuns
  import MainTimers
  import opened UpdateSafety
  import Fota

  // ---- The module as a fold ----

  /** How far an update has come for the module: nothing asked for, asked for, being fetched, waiting for the
      order to apply, being applied, waiting for the reset, or being cancelled. */
  datatype Phase = Idle | Polling | Fetching | AwaitingOrder | Installing | AwaitingReset | Cancelling

  function PhaseOf(stage: Fota.Stage): Phase {
    match stage
    case WaitingForPollRequest => Idle
    case PollingForUpdate => Polling
    case Downloading => Fetching
    case WaitingForImageApply => AwaitingOrder
    case ImageApplying => Installing
    case RebootPending => AwaitingReset
    case Canceling => Cancelling
  }

  /** What a message does to it. */
  function Advance(p: Phase, msg: FotaMsg): Phase {
    match msg
    case PollRequest => if p == Idle then Polling else p
    case NoAvailableUpdate => if p == Polling then Idle else p
    case DownloadingUpdate => if p == Polling then Fetching else p
    case ImageApplyNeeded => if p == Fetching then AwaitingOrder else p
    case ImageApply => if p == AwaitingOrder then Installing else p
    case SuccessRebootNeeded => if p == Fetching || p == Installing then AwaitingReset else p
    case DownloadCancel => if p == Idle || p == Polling then p else Cancelling
    case DownloadCanceled => if p == Fetching || p == Cancelling then Idle else p
    case _ => if p == Fetching then Idle else p
  }

  function AdvanceAll(p: Phase, msgs: seq<FotaMsg>): Phase
    decreases msgs
  {
    if msgs == [] then p else AdvanceAll(Advance(p, msgs[0]), msgs[1..])
  }

  /** Polling asks the library and, without a job, answers; an order makes the library apply; a cancel reaches it
      unless nothing is going on. Nothing else is asked of it. */
  lemma ReactIs(stage: Fota.Stage, msg: FotaMsg, job: bool)
    ensures var p, (stage', acts) := PhaseOf(stage), Fota.React(stage, msg, job);
            && PhaseOf(stage') == Advance(p, msg)
            && (Fota.PollProcess in acts <==> p == Idle && msg == PollRequest)
            && (Fota.PublishNoUpdate in acts <==> p == Idle && msg == PollRequest && !job)
            && (Fota.ApplyUpdate in acts <==> p == AwaitingOrder && msg == ImageApply)
            && (Fota.CancelDownload in acts <==> p != Idle && p != Polling && msg == DownloadCancel)
            && |acts| == |set act | act in acts|
  {
    var acts := Fota.React(stage, msg, job).1;
    var distinct := set act | act in acts;
    if |acts| == 1 {
      assert distinct == {acts[0]};
    } else if |acts| == 2 {
      assert distinct == {acts[0], acts[1]};
    } else {
      assert distinct == {};
    }
  }

  /** The stage after any messages, with what the cloud says of jobs. */
  function StageAfter(stage: Fota.Stage, msgs: seq<FotaMsg>, jobs: seq<bool>): Fota.Stage
    requires |jobs| == |msgs|
    decreases msgs
  {
    if msgs == [] then stage else StageAfter(Fota.React(stage, msgs[0], jobs[0]).0, msgs[1..], jobs[1..])
  }

  /** Over every run the module is where the messages have taken it. */
  lemma {:induction false} RunAdvances(stage: Fota.Stage, msgs: seq<FotaMsg>, jobs: seq<bool>)
    requires |jobs| == |msgs|
    ensures PhaseOf(StageAfter(stage, msgs, jobs)) == AdvanceAll(PhaseOf(stage), msgs)
    decreases msgs
  {
    if msgs != [] {
      ReactIs(stage, msgs[0], jobs[0]);
      RunAdvances(Fota.React(stage, msgs[0], jobs[0]).0, msgs[1..], jobs[1..]);
      hide Fota.React, Advance, PhaseOf;
    }
  }

  // ---- With the application ----

  /** A message that fits how far things have come when it is taken: the library reports a download to a module
      that polls, and success of what is going on; an order finds the module waiting for it. Nothing is cancelled
      and no download fails. */
  predicate Fits(p: Phase, msg: FotaMsg) {
    && !Stops(msg) && msg != DownloadCancel
    && (msg == DownloadingUpdate ==> p == Polling)
    && (msg == SuccessRebootNeeded ==> p == Fetching || p == Installing)
    && (msg == ImageApply ==> p == AwaitingOrder)
  }

  predicate AllFit(p: Phase, msgs: seq<FotaMsg>)
    decreases msgs
  {
    msgs != [] ==> Fits(p, msgs[0]) && AllFit(Advance(p, msgs[0]), msgs[1..])
  }

  lemma {:induction false} AdvanceConcat(p: Phase, a: seq<FotaMsg>, b: seq<FotaMsg>)
    ensures AdvanceAll(p, a + b) == AdvanceAll(AdvanceAll(p, a), b)
    ensures AllFit(p, a + b) <==> AllFit(p, a) && AllFit(AdvanceAll(p, a), b)
    decreases a
  {
    if a == [] {
      assert a + b == b;
    } else {
      AdvanceConcat(Advance(p, a[0]), a[1..], b);
      assert (a + b)[1..] == a[1..] + b;
    }
  }

  /** Until it is ordered to apply, and after it has applied, nothing that fits takes the module elsewhere. */
  lemma {:induction false} WaitsForOrder(p: Phase, msgs: seq<FotaMsg>)
    requires AllFit(p, msgs)
    ensures p == AwaitingOrder && ImageApply !in msgs ==> AdvanceAll(p, msgs) == AwaitingOrder
    ensures p == Installing || p == AwaitingReset ==> ImageApply !in msgs
    decreases msgs
  {
    if msgs != [] {
      WaitsForOrder(Advance(p, msgs[0]), msgs[1..]);
      assert forall m :: m in msgs ==> m == msgs[0] || m in msgs[1..];
    }
  }

  /** The messages of FOTA_CHAN in the application's queue. */
  function FotaIn(queue: seq<Msg>): seq<FotaMsg> {
    if queue == [] then [] else (if queue[0].FotaEvent? then [queue[0].fota] else []) + FotaIn(queue[1..])
  }

  lemma {:induction false} FotaInGrows(queue: seq<Msg>, news: seq<FotaMsg>)
    ensures FotaIn(queue + Heard(news)) == FotaIn(queue) + news
  {
    if queue != [] {
      FotaInGrows(queue[1..], news);
      assert (queue + Heard(news))[1..] == queue[1..] + Heard(news);
    } else if news != [] {
      FotaInGrows([], news[1..]);
      assert [] + Heard(news) == [FotaEvent(news[0])] + Heard(news[1..]) && [] + Heard(news[1..]) == Heard(news[1..]);
    }
  }

  lemma {:induction false} FotaInOther(queue: seq<Msg>, msg: Msg)
    requires !msg.FotaEvent?
    ensures FotaIn(queue + [msg]) == FotaIn(queue)
  {
    if queue == [] {
      assert [] + [msg] == [msg];
    } else {
      FotaInOther(queue[1..], msg);
      assert (queue + [msg])[1..] == queue[1..] + [msg];
    }
  }

  /** How far things had come after what the application has taken. */
  function Seen(p: Phase, envs: seq<Env>): Phase {
    if envs == [] then p
    else
      var before, msg := Seen(p, envs[..|envs| - 1]), envs[|envs| - 1].msg;
      if msg.FotaEvent? then Advance(before, msg.fota) else before
  }

  /** The application's part in the update agrees with the module's, as far as it has seen it; `ordered` when its
      order is still on its way back to it. */
  predicate Agrees(leaf: State, p: Phase, ordered: bool) {
    AgreesAt(StageOf(leaf), p, ordered)
  }

  predicate AgreesAt(stage: MainRuns.Stage, p: Phase, ordered: bool) {
    && (ordered ==> stage == Applying)
    && match stage
       case NoUpdate => p == Idle || p == Polling
       case Downloading => p == Fetching
       case AwaitingReboot => p == AwaitingReset
       case AwaitingApply => p == AwaitingOrder
       case Applying => if ordered then p == AwaitingOrder else p == Installing
       case Rebooting => p == AwaitingReset
  }

  /** Both modules and the channel between them. */
  ghost predicate InStep(v: View, p: Phase, s: Together) {
    var seen, heard := Seen(p, s.taken), FotaIn(s.toApp);
    && MainRuns.Inv(v) && ModeOf(v.leaf) != Update && s.app == After(v, s.taken)
    && Agrees(s.app.leaf, seen, ImageApply in heard)
    && AllFit(seen, heard) && AllFit(PhaseOf(s.stage), s.toUpdate)
    && AdvanceAll(seen, heard) == AdvanceAll(PhaseOf(s.stage), s.toUpdate)
    && s.applied + Pending(s.toUpdate) == Orders(v, s.taken)
  }

  /** The phases in which the channel ends, wherever it is read. */
  function End(s: Together): Phase {
    AdvanceAll(PhaseOf(s.stage), s.toUpdate)
  }

  /** What the application says on the channel: polls outside updates, an order when it may. */
  lemma AppSays(v: View, env: Env)
    requires MainRuns.Inv(v) && v.leaf != FotaRebooting
    ensures var w := Step(v, env);
            var news := FotaNews(MainTimers.NewOuts(v, w));
            && (forall m :: m in news ==> m == PollRequest || m == ImageApply)
            && (ImageApply in news ==>
                  v.leaf == FotaWaitingForDisconnectToApply && w.leaf == FotaApplyingImage && news == [ImageApply])
            && (w.leaf == FotaApplyingImage && v.leaf != FotaApplyingImage ==> news == [ImageApply])
  {
    hide MainTimers.NewOuts, Step, MainRuns.Inv, FotaNews;
    var w := Step(v, env);
    NewsAre(MainTimers.NewOuts(v, w));
    if ModeOf(w.leaf) == Update {
      QuietInUpdate(v, env);
      if ModeOf(v.leaf) == Update && w.leaf != v.leaf {
        MovesOnlyOn(v, env);
      }
      OneNews(ApplyImage, ApplyImage);
      OneNews(DisconnectNetwork, DisconnectNetwork);
      OneNews(ClearStorage, Reboot);
    } else {
      OnlyInUpdates(v, env);
    }
  }

  lemma OneNews(a: Out, b: Out)
    ensures FotaNews([]) == []
    ensures FotaNews([a]) == if a == FotaPoll then [PollRequest] else if a == ApplyImage then [ImageApply] else []
    ensures FotaNews([a, b]) == FotaNews([a]) + FotaNews([b])
  {
    assert [a, b][..1] == [a] && [a][..0] == [] && [b][..0] == [];
  }

  lemma {:induction false} NewsAre(outs: seq<Out>)
    ensures forall m :: m in FotaNews(outs) ==> m == PollRequest || m == ImageApply
    ensures ImageApply in FotaNews(outs) ==> ApplyImage in outs
  {
    if outs != [] {
      NewsAre(outs[..|outs| - 1]);
    }
  }

  lemma StageFollows(v: View, env: Env)
    requires MainRuns.Inv(v)
    ensures StageOf(Step(v, env).leaf) == NextStage(StageOf(v.leaf), env.msg)
    ensures IsLeaf(v.leaf) && IsLeaf(Step(v, env).leaf)
  {
    StepSummarizes(v, env);
    StepKeepsInv(v, env);
    SummaryHasStage(v);
    SummaryHasStage(Step(v, env));
    FollowStage(Summarize(v), env.msg);
    hide Step, Summarize, Follow, NextStage, HistoryMatches, StageOf;
  }

  lemma SummaryHasStage(v: View)
    requires IsLeaf(v.leaf)
    ensures Summarize(v).stage == StageOf(v.leaf)
  {
  }

  lemma FollowStage(s: Summary, msg: Msg)
    ensures Follow(s, msg).stage == NextStage(s.stage, msg)
  {
  }

  /** The application takes a message that fits: it still agrees with what it has now seen. `rest` says whether its
      order is on its way behind that message. */
  lemma LeafAgrees(leaf: State, leaf': State, msg: Msg, p: Phase, rest: bool)
    requires IsLeaf(leaf) && IsLeaf(leaf') && leaf != FotaRebooting
    requires StageOf(leaf') == NextStage(StageOf(leaf), msg)
    requires msg.FotaEvent? ==> Fits(p, msg.fota)
    requires Agrees(leaf, p, rest || msg == FotaEvent(ImageApply))
    requires msg == FotaEvent(ImageApply) ==> !rest
    requires rest && p == AwaitingOrder ==> msg.FotaEvent? ==> Advance(p, msg.fota) == AwaitingOrder
    ensures var p' := if msg.FotaEvent? then Advance(p, msg.fota) else p;
            Agrees(leaf', p', rest || (leaf' == FotaApplyingImage && leaf != FotaApplyingImage))
  {
    hide AgreesAt, Fits, Advance, NextStage;
    StageAgrees(StageOf(leaf), msg, p, rest);
  }

  lemma StageAgrees(stage: MainRuns.Stage, msg: Msg, p: Phase, rest: bool)
    requires stage != Rebooting && (msg.FotaEvent? ==> Fits(p, msg.fota))
    requires AgreesAt(stage, p, rest || msg == FotaEvent(ImageApply))
    requires msg == FotaEvent(ImageApply) ==> !rest
    requires rest && p == AwaitingOrder ==> msg.FotaEvent? ==> Advance(p, msg.fota) == AwaitingOrder
    ensures var stage', p' := NextStage(stage, msg), if msg.FotaEvent? then Advance(p, msg.fota) else p;
            AgreesAt(stage', p', rest || (stage' == Applying && stage != Applying))
  {
  }

  /** When the application may order, the module waits for the order, and goes on waiting until it has it. */
  lemma OrderAgrees(p: Phase, ordered: bool)
    ensures Agrees(FotaWaitingForDisconnectToApply, p, ordered) ==> !ordered && p == AwaitingOrder
    ensures Agrees(FotaApplyingImage, p, true) ==> p == AwaitingOrder
  {
  }

  lemma QueueTaken(queue: seq<Msg>, p: Phase)
    requires queue != []
    ensures var heard, rest := FotaIn(queue), FotaIn(queue[1..]);
            if queue[0].FotaEvent? then
              && heard == [queue[0].fota] + rest
              && (AllFit(p, heard) <==> Fits(p, queue[0].fota) && AllFit(Advance(p, queue[0].fota), rest))
              && AdvanceAll(p, heard) == AdvanceAll(Advance(p, queue[0].fota), rest)
              && (ImageApply in heard <==> queue[0].fota == ImageApply || ImageApply in rest)
            else heard == rest
  {
  }

  lemma {:induction false} PollsFit(p: Phase, news: seq<FotaMsg>)
    requires forall m :: m in news ==> m == PollRequest
    ensures AllFit(p, news)
    decreases news
  {
    if news != [] {
      assert news[0] in news && forall m :: m in news[1..] ==> m in news;
      PollsFit(Advance(p, news[0]), news[1..]);
    }
  }

  /** What the application says fits where it arrives. */
  lemma NewsFit(p: Phase, rest: seq<FotaMsg>, news: seq<FotaMsg>)
    requires AllFit(p, rest)
    requires forall m :: m in news ==> m == PollRequest || m == ImageApply
    requires ImageApply in news ==> news == [ImageApply] && p == AwaitingOrder && ImageApply !in rest
    ensures AllFit(p, rest + news)
  {
    AdvanceConcat(p, rest, news);
    if ImageApply in news {
      WaitsForOrder(p, rest);
      assert [ImageApply][1..] == [];
    } else {
      PollsFit(AdvanceAll(p, rest), news);
    }
  }

  /** The application's view of the channel after its turn. */
  lemma ChannelSeen(v: View, env: Env, p: Phase, queue: seq<Msg>)
    requires MainRuns.Inv(v) && v.leaf != FotaRebooting && queue != [] && env.msg == queue[0]
    requires AllFit(p, FotaIn(queue)) && Agrees(v.leaf, p, ImageApply in FotaIn(queue))
    ensures var w := Step(v, env);
            var news, rest := FotaNews(MainTimers.NewOuts(v, w)), FotaIn(queue[1..]);
            var p' := if env.msg.FotaEvent? then Advance(p, env.msg.fota) else p;
            && Agrees(w.leaf, p', ImageApply in rest + news) && AllFit(p', rest + news)
            && AdvanceAll(p', rest + news) == AdvanceAll(AdvanceAll(p, FotaIn(queue)), news)
  {
    hide Step, MainTimers.NewOuts, FotaNews, MainRuns.Inv, NextStage, StageOf, IsLeaf, Agrees;
    var w := Step(v, env);
    var news, rest := FotaNews(MainTimers.NewOuts(v, w)), FotaIn(queue[1..]);
    var p' := if env.msg.FotaEvent? then Advance(p, env.msg.fota) else p;
    StageFollows(v, env);
    AppSays(v, env);
    QueueTaken(queue, p);
    WaitsForOrder(p', rest);
    hide FotaIn;
    LeafAgrees(v.leaf, w.leaf, env.msg, p, ImageApply in rest);
    OrderAgrees(p, ImageApply in FotaIn(queue));
    OrderAgrees(p', true);
    NewsFit(p', rest, news);
    AdvanceConcat(p', rest, news);
  }

  /** The application's news also fit at the end of the module's queue. */
  lemma ChannelFits(v: View, p: Phase, s: Together, env: Env)
    requires InStep(v, p, s) && s.toApp != [] && s.app.leaf != FotaRebooting && env.msg == s.toApp[0]
    ensures AllFit(End(s), FotaNews(MainTimers.NewOuts(s.app, Step(s.app, env))))
  {
    hide Step, MainTimers.NewOuts, FotaNews, MainRuns.Inv, PhaseOf, Pending, Orders, After;
    var seen, news := Seen(p, s.taken), FotaNews(MainTimers.NewOuts(s.app, Step(s.app, env)));
    AlwaysInv(v, s.taken);
    AppSays(s.app, env);
    hide Seen;
    if ImageApply in news {
      WaitsForOrder(seen, FotaIn(s.toApp));
      assert [ImageApply][1..] == [];
    } else {
      PollsFit(End(s), news);
    }
  }

  lemma AppKeepsStep(v: View, p: Phase, s: Together, now: nat, ms: UInt32)
    requires InStep(v, p, s) && UpdateSafety.Possible(s, AppTakes(now, ms))
    ensures InStep(v, p, UpdateSafety.Happens(s, AppTakes(now, ms)))
  {
    hide Step, MainTimers.NewOuts, FotaNews, MainRuns.Inv, Heard, Agrees, Advance, Pending, PhaseOf, AllFit, FotaIn,
        AdvanceAll;
    var env := Env(s.toApp[0], now, ms);
    var taken, news := s.taken + [env], FotaNews(MainTimers.NewOuts(s.app, Step(s.app, env)));
    assert taken[..|taken| - 1] == s.taken;
    AlwaysInv(v, s.taken);
    ChannelSeen(s.app, env, Seen(p, s.taken), s.toApp);
    FotaInGrows(s.toApp[1..], news);
    AdvanceConcat(PhaseOf(s.stage), s.toUpdate, news);
    AdvanceConcat(Seen(p, s.taken), FotaIn(s.toApp), news);
    ChannelFits(v, p, s, env);
    StepOrders(s.app, env);
    PendingConcat(s.toUpdate, news);
  }

  lemma UpdateKeepsStep(v: View, p: Phase, s: Together, job: bool)
    requires InStep(v, p, s) && UpdateSafety.Possible(s, UpdateTakes(job))
    ensures InStep(v, p, UpdateSafety.Happens(s, UpdateTakes(job)))
  {
    hide MainRuns.Inv, After, Orders, Fota.React, Heard, PhaseOf, Advance, FotaIn, Seen, Agrees, AllFit, AdvanceAll,
        Pending;
    var acts := Fota.React(s.stage, s.toUpdate[0], job).1;
    var news := if Fota.PublishNoUpdate in acts then [NoAvailableUpdate] else [];
    ReactIs(s.stage, s.toUpdate[0], job);
    FotaInGrows(s.toApp, news);
    PendingConcat(s.toUpdate[1..], news);
    OneTaken(PhaseOf(s.stage), s.toUpdate);
    NothingNewFits(PhaseOf(Fota.React(s.stage, s.toUpdate[0], job).0), s.toUpdate[1..], news);
    NothingNewFits(Seen(p, s.taken), FotaIn(s.toApp), news);
  }

  lemma OneTaken(p: Phase, msgs: seq<FotaMsg>)
    requires msgs != [] && AllFit(p, msgs)
    ensures AllFit(Advance(p, msgs[0]), msgs[1..]) && (msgs[0] == ImageApply ==> p == AwaitingOrder)
    ensures AdvanceAll(p, msgs) == AdvanceAll(Advance(p, msgs[0]), msgs[1..])
    ensures Pending(msgs) == (if msgs[0] == ImageApply then 1 else 0) + Pending(msgs[1..])
  {
  }

  /** The module's answer to a poll fits anywhere. */
  lemma NothingNewFits(p: Phase, msgs: seq<FotaMsg>, news: seq<FotaMsg>)
    requires AllFit(p, msgs) && (news == [] || news == [NoAvailableUpdate])
    ensures AllFit(p, msgs + news) && AdvanceAll(p, msgs + news) == AdvanceAll(AdvanceAll(p, msgs), news)
    ensures Pending(news) == 0 && (ImageApply in msgs + news <==> ImageApply in msgs)
  {
    AdvanceConcat(p, msgs, news);
  }

  /** Somebody else's message fits where it is published. */
  predicate Orderly(s: Together, e: Event) {
    e.Published? ==> Fits(End(s), e.fota)
  }

  lemma PublishedKeepsStep(v: View, p: Phase, s: Together, fota: FotaMsg)
    requires InStep(v, p, s) && UpdateSafety.Possible(s, Published(fota)) && Fits(End(s), fota)
    ensures InStep(v, p, UpdateSafety.Happens(s, Published(fota)))
  {
    hide MainRuns.Inv, After, Orders, Heard, PhaseOf, FotaIn, Seen, Agrees, Advance;
    FotaInGrows(s.toApp, [fota]);
    PendingConcat(s.toUpdate, [fota]);
    AdvanceConcat(PhaseOf(s.stage), s.toUpdate, [fota]);
    AdvanceConcat(Seen(p, s.taken), FotaIn(s.toApp), [fota]);
    hide Fits;
  }

  lemma HappensInStep(v: View, p: Phase, s: Together, e: Event)
    requires InStep(v, p, s) && UpdateSafety.Possible(s, e) && Orderly(s, e)
    ensures InStep(v, p, UpdateSafety.Happens(s, e))
  {
    match e
    case AppTakes(now, ms) => AppKeepsStep(v, p, s, now, ms);
    case UpdateTakes(job) => UpdateKeepsStep(v, p, s, job);
    case Published(fota) => PublishedKeepsStep(v, p, s, fota);
    case Arrives(msg) => FotaInOther(s.toApp, msg);
  }

  /** The library reports only what fits, nothing is cancelled and no download fails. */
  ghost predicate AlwaysOrderly(s: Together, es: seq<Event>)
    requires UpdateSafety.Occurs(s, es)
    decreases es
  {
    es != [] ==> Orderly(s, es[0]) && AlwaysOrderly(UpdateSafety.Happens(s, es[0]), es[1..])
  }

  lemma {:induction false} AlwaysInStep(v: View, p: Phase, s: Together, es: seq<Event>)
    requires InStep(v, p, s) && UpdateSafety.Occurs(s, es) && AlwaysOrderly(s, es)
    ensures InStep(v, p, UpdateSafety.Finally(s, es))
    decreases es
  {
    hide InStep, UpdateSafety.Happens, Orderly;
    if es != [] {
      HappensInStep(v, p, s, es[0]);
      AlwaysInStep(v, p, UpdateSafety.Happens(s, es[0]), es[1..]);
    }
  }

  /** Across both modules from start-up, in any interleaving of such a run: every message on its way to the update
      module fits, so an order finds the module waiting for it; orders given are applied or on their way; and when
      the module has taken its messages the image has been applied exactly as often as ordered. */
  lemma OrdersAreApplied(v: View, es: seq<Event>)
    requires MainRuns.Inv(v) && ModeOf(v.leaf) != Update
    requires var s0 := Together(v, [], Fota.WaitingForPollRequest, [], [], 0);
             UpdateSafety.Occurs(s0, es) && AlwaysOrderly(s0, es)
    ensures var s := UpdateSafety.Finally(Together(v, [], Fota.WaitingForPollRequest, [], [], 0), es);
            && AllFit(PhaseOf(s.stage), s.toUpdate)
            && s.applied + Pending(s.toUpdate) == Orders(v, s.taken)
            && (s.toUpdate == [] ==> s.applied == Orders(v, s.taken))
  {
    hide UpdateSafety.Occurs, UpdateSafety.Happens, AlwaysOrderly, UpdateSafety.Finally, MainRuns.Inv;
    AlwaysInStep(v, Idle, Together(v, [], Fota.WaitingForPollRequest, [], [], 0), es);
  }
}
