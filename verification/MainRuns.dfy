/** Whole runs of the application machine: which histories an update can see, what mode and connectivity
    it returns to, who owns the timers, what precedes a reboot, and how often it samples. */
module MainRuns {
  import opened Common
  import opened MainSpec
  import opened MainTransitions

  function After(v: View, envs: seq<Env>): View {
    if envs == [] then v else Step(After(v, envs[..|envs| - 1]), envs[|envs| - 1])
  }

  /** The history mirrors the leaf; during an update it is one of four, never bare PassthroughConnected. */
  ghost predicate HistoryMatches(v: View) {
    match ModeOf(v.leaf)
    case Buffer => v.history == BufferState(Connected(v.leaf))
    case Passthrough => v.history == PassthroughLeaf(Connected(v.leaf))
    case Update => HistoryOk(v)
  }

  ghost predicate Inv(v: View) {
    Owned(v) && HistoryMatches(v)
  }

  /** Where going to a mode ends. */
  lemma Lands(v: View, connected: bool, entering: bool, env: Env)
    ensures var w := GoBuffer(v, connected, entering, env);
            && ModeOf(w.leaf) == Buffer && Connected(w.leaf) == connected && w.history == BufferState(connected)
            && (w.sampleTimer.Some? <==> Waiting(w.leaf))
            && (entering || v.sendTimer.Some? ==> w.sendTimer.Some?)
            && IsLeaf(w.leaf)
    ensures var w := GoPassthrough(v, connected, entering, env);
            && w.leaf == w.history == PassthroughLeaf(connected)
            && w.sampleTimer == None && w.sendTimer == (if entering then None else v.sendTimer)
  {
  }

  lemma Samples(v: View, connected: bool, env: Env)
    ensures var w := Sample(v, connected, env);
            && ModeOf(w.leaf) == Buffer && Connected(w.leaf) == connected && w.history == v.history
            && (w.sampleTimer.Some? <==> Waiting(w.leaf)) && w.sendTimer == v.sendTimer && IsLeaf(w.leaf)
  {
  }

  /** The messages that take buffer mode elsewhere. */
  predicate MovesBuffer(msg: Msg) {
    msg.CloudConnected? || msg.CloudDisconnected? || msg.StoragePassthrough? || msg.FotaEvent?
  }

  /** All others keep its connectivity and its history. */
  lemma BufferStays(v: View, env: Env)
    requires Inv(v) && ModeOf(v.leaf) == Buffer && !MovesBuffer(env.msg)
    ensures var w := StepBuffer(v, env);
            && ModeOf(w.leaf) == Buffer && Connected(w.leaf) == Connected(v.leaf) && w.history == v.history
            && Inv(w)
  {
    hide GoBuffer, GoPassthrough, StepShadow, Sample;
    Samples(v, Connected(v.leaf), env);
    ShadowKeeps(v, env);
  }

  lemma BufferKeepsInv(v: View, env: Env)
    requires Inv(v) && ModeOf(v.leaf) == Buffer
    ensures Inv(StepBuffer(v, env))
  {
    hide GoBuffer, GoPassthrough, StepShadow, Sample;
    if MovesBuffer(env.msg) {
      Lands(v, !Connected(v.leaf), false, env);
      Lands(v, Connected(v.leaf), true, env);
    } else {
      BufferStays(v, env);
      hide StepBuffer;
    }
  }

  predicate MovesPassthrough(msg: Msg) {
    msg.CloudConnected? || msg.CloudDisconnected? || msg.StorageBuffer? || msg.FotaEvent?
  }

  lemma PassthroughStays(v: View, env: Env)
    requires Inv(v) && ModeOf(v.leaf) == Passthrough && !MovesPassthrough(env.msg)
    ensures var w := StepPassthrough(v, env);
            && ModeOf(w.leaf) == Passthrough && Connected(w.leaf) == Connected(v.leaf) && w.history == v.history
            && Inv(w)
  {
    hide GoBuffer, GoPassthrough, StepShadow;
    ShadowKeeps(v, env);
  }

  lemma PassthroughKeepsInv(v: View, env: Env)
    requires Inv(v) && ModeOf(v.leaf) == Passthrough
    ensures Inv(StepPassthrough(v, env))
  {
    hide GoBuffer, GoPassthrough, StepShadow;
    if MovesPassthrough(env.msg) {
      Lands(v, true, false, env);
      Lands(v, false, false, env);
      Lands(v, Connected(v.leaf), true, env);
    } else {
      PassthroughStays(v, env);
      hide StepPassthrough;
    }
  }

  /** An update that stops returns to what its history holds. */
  lemma Resumes(v: View, env: Env)
    requires HistoryOk(v)
    ensures var w := Resume(v, env);
            && ModeOf(w.leaf) == ModeIn(v.history) && Connected(w.leaf) == ConnectedIn(v.history)
            && w.history == v.history && IsLeaf(w.leaf)
            && (w.sampleTimer.Some? <==> Waiting(w.leaf)) && (w.sendTimer.Some? <==> ModeOf(w.leaf) == Buffer)
  {
    hide GoBuffer, GoPassthrough;
    Lands(v, true, true, env);
    Lands(v, false, true, env);
  }

  function ModeIn(history: State): Mode {
    if history == BufferDisconnected || history == BufferConnected then Buffer else Passthrough
  }

  predicate ConnectedIn(history: State) {
    history == BufferConnected || history == PassthroughConnectedSampling
  }

  lemma ConnectivityRemembered(v: View, env: Env)
    requires ModeOf(v.leaf) == Update && (env.msg.CloudConnected? || env.msg.CloudDisconnected?)
    ensures StepUpdate(v, env) == v.(history := Remember(v.history, env.msg.CloudConnected?))
  {
    hide Resume, Remember;
  }

  lemma StageStays(v: View, env: Env)
    requires Inv(v) && ModeOf(v.leaf) == Update && !env.msg.CloudConnected? && !env.msg.CloudDisconnected?
    requires !(env.msg.FotaEvent? && Stops(env.msg.fota))
    ensures Inv(StepUpdate(v, env)) && ModeOf(StepUpdate(v, env).leaf) == Update
  {
    hide Resume, Remember, ModeIn, ConnectedIn, Connected;
  }

  lemma UpdateStays(v: View, env: Env)
    requires Inv(v) && ModeOf(v.leaf) == Update && !(env.msg.FotaEvent? && Stops(env.msg.fota))
    ensures Inv(StepUpdate(v, env)) && ModeOf(StepUpdate(v, env).leaf) == Update
  {
    hide StepUpdate;
    if env.msg.CloudConnected? || env.msg.CloudDisconnected? {
      ConnectivityRemembered(v, env);
    } else {
      StageStays(v, env);
    }
  }

  lemma UpdateKeepsInv(v: View, env: Env)
    requires Inv(v) && ModeOf(v.leaf) == Update
    ensures Inv(StepUpdate(v, env))
  {
    hide Resume, StepUpdate;
    if env.msg.FotaEvent? && Stops(env.msg.fota) {
      Resumes(v, env);
      StopResumes(v, env);
    } else {
      UpdateStays(v, env);
    }
  }

  /** Whatever the leaf, a stopped download resumes. */
  lemma StopResumes(v: View, env: Env)
    requires env.msg.FotaEvent? && Stops(env.msg.fota)
    ensures StepUpdate(v, env) == Resume(v, env)
  {
    hide Resume;
  }

  lemma StepKeepsInv(v: View, env: Env)
    requires Inv(v)
    ensures Inv(Step(v, env))
  {
    hide Inv, StepBuffer, StepPassthrough, StepUpdate;
    match ModeOf(v.leaf) {
      case Buffer => BufferKeepsInv(v, env);
      case Passthrough => PassthroughKeepsInv(v, env);
      case Update => UpdateKeepsInv(v, env);
    }
  }

  lemma ShadowKeeps(v: View, env: Env)
    ensures var w := StepShadow(v, env);
            w.(start := v.start, sample := v.sample, update := v.update, outs := v.outs) == v
  {
  }

  lemma {:induction false} AlwaysInv(v: View, envs: seq<Env>)
    requires Inv(v)
    ensures Inv(After(v, envs))
  {
    if envs != [] {
      AlwaysInv(v, envs[..|envs| - 1]);
      StepKeepsInv(After(v, envs[..|envs| - 1]), envs[|envs| - 1]);
    }
  }

  /** Start-up establishes the invariant, in the configured mode. */
  lemma StartsInv(mode: State, sample: UInt32, update: UInt32, now: nat, ms: UInt32)
    requires ModeState(mode)
    ensures var v := Initial(mode, sample, update, now, ms);
            && Inv(v) && !Connected(v.leaf)
            && ModeOf(v.leaf) == (if mode == BufferMode then Buffer else Passthrough)
            && (ModeOf(v.leaf) == Buffer ==> v.sendTimer.Some?)
            && (v.sampleTimer.Some? <==> Waiting(v.leaf))
  {
    hide GoBuffer, GoPassthrough;
    var blank := View(Running, Running, 0, sample, update, false, 0, None, None, []);
    Lands(blank, false, true, Env(LocationOther, now, ms));
  }

  // ---- Mode and connectivity ----

  /** The application as its users know it: the storage mode, whether the cloud is connected, and how far a
      firmware update has come. */
  datatype Stage = NoUpdate | Downloading | AwaitingReboot | AwaitingApply | Applying | Rebooting

  datatype Summary = Summary(mode: Mode, connected: bool, stage: Stage)

  function StageOf(leaf: State): Stage {
    match leaf
    case FotaDownloading => Downloading
    case FotaWaitingForDisconnect => AwaitingReboot
    case FotaWaitingForDisconnectToApply => AwaitingApply
    case FotaApplyingImage => Applying
    case FotaRebooting => Rebooting
    case _ => NoUpdate
  }

  function Summarize(v: View): Summary {
    if ModeOf(v.leaf) == Update then Summary(ModeIn(v.history), ConnectedIn(v.history), StageOf(v.leaf))
    else Summary(ModeOf(v.leaf), Connected(v.leaf), NoUpdate)
  }

  function NextStage(stage: Stage, msg: Msg): Stage {
    match (stage, msg)
    case (Rebooting, _) => Rebooting
    case (NoUpdate, FotaEvent(DownloadingUpdate)) => Downloading
    case (NoUpdate, _) => NoUpdate
    case (Downloading, FotaEvent(SuccessRebootNeeded)) => AwaitingReboot
    case (Downloading, FotaEvent(ImageApplyNeeded)) => AwaitingApply
    case (AwaitingReboot, NetworkDisconnected) => Rebooting
    case (AwaitingApply, NetworkDisconnected) => Applying
    case (Applying, FotaEvent(SuccessRebootNeeded)) => Rebooting
    case (_, FotaEvent(fota)) => if Stops(fota) then NoUpdate else stage
    case _ => stage
  }

  /** Connectivity follows the cloud always, the mode follows storage outside updates. */
  function Follow(s: Summary, msg: Msg): Summary {
    if s.stage == Rebooting then s
    else
      var connected := if msg.CloudConnected? then true else if msg.CloudDisconnected? then false else s.connected;
      var mode := if s.stage != NoUpdate then s.mode
                  else if msg.StorageBuffer? then Buffer else if msg.StoragePassthrough? then Passthrough else s.mode;
      Summary(mode, connected, NextStage(s.stage, msg))
  }

  function FollowAll(s: Summary, envs: seq<Env>): Summary {
    if envs == [] then s else Follow(FollowAll(s, envs[..|envs| - 1]), envs[|envs| - 1].msg)
  }

  lemma BufferSummarizes(v: View, env: Env)
    requires Inv(v) && ModeOf(v.leaf) == Buffer
    ensures Summarize(StepBuffer(v, env)) == Follow(Summarize(v), env.msg)
  {
    hide GoBuffer, GoPassthrough, StepShadow, Sample;
    if MovesBuffer(env.msg) {
      Lands(v, !Connected(v.leaf), false, env);
      Lands(v, Connected(v.leaf), true, env);
    } else {
      BufferStays(v, env);
      hide StepBuffer;
    }
  }

  lemma PassthroughSummarizes(v: View, env: Env)
    requires Inv(v) && ModeOf(v.leaf) == Passthrough
    ensures Summarize(StepPassthrough(v, env)) == Follow(Summarize(v), env.msg)
  {
    hide GoBuffer, GoPassthrough, StepShadow;
    if MovesPassthrough(env.msg) {
      Lands(v, true, false, env);
      Lands(v, false, false, env);
      Lands(v, Connected(v.leaf), true, env);
    } else {
      PassthroughStays(v, env);
      hide StepPassthrough;
    }
  }

  lemma UpdateSummarizes(v: View, env: Env)
    requires Inv(v) && ModeOf(v.leaf) == Update && v.leaf != FotaRebooting
    ensures Summarize(StepUpdate(v, env)) == Follow(Summarize(v), env.msg)
  {
    if env.msg.CloudConnected? || env.msg.CloudDisconnected? {
      hide StepUpdate, NextStage;
      ConnectivityRemembered(v, env);
      StageKept(StageOf(v.leaf), env.msg);
    } else {
      StageSummarizes(v, env);
    }
  }

  lemma StageSummarizes(v: View, env: Env)
    requires Inv(v) && ModeOf(v.leaf) == Update && v.leaf != FotaRebooting
    requires !env.msg.CloudConnected? && !env.msg.CloudDisconnected?
    ensures Summarize(StepUpdate(v, env)) == Follow(Summarize(v), env.msg)
  {
    hide Resume, StepUpdate, ConnectedIn;
    if env.msg.FotaEvent? && Stops(env.msg.fota) {
      Resumes(v, env);
      StopResumes(v, env);
    } else {
      StageMoves(v, env);
    }
  }

  lemma StageMoves(v: View, env: Env)
    requires ModeOf(v.leaf) == Update && IsLeaf(v.leaf) && v.leaf != FotaRebooting
    requires !env.msg.CloudConnected? && !env.msg.CloudDisconnected?
    requires !(env.msg.FotaEvent? && Stops(env.msg.fota))
    ensures var w := StepUpdate(v, env);
            && ModeOf(w.leaf) == Update && w.history == v.history
            && StageOf(w.leaf) == NextStage(StageOf(v.leaf), env.msg)
  {
  }

  lemma StageKept(stage: Stage, msg: Msg)
    requires msg.CloudConnected? || msg.CloudDisconnected?
    ensures NextStage(stage, msg) == stage
  {
  }

  lemma StepSummarizes(v: View, env: Env)
    requires Inv(v)
    ensures Summarize(Step(v, env)) == Follow(Summarize(v), env.msg)
  {
    hide Inv, StepBuffer, StepPassthrough, StepUpdate, Follow, Summarize;
    match ModeOf(v.leaf) {
      case Buffer => BufferSummarizes(v, env);
      case Passthrough => PassthroughSummarizes(v, env);
      case Update =>
        if v.leaf == FotaRebooting {
          RebootingStays(v, env);
        } else {
          UpdateSummarizes(v, env);
        }
    }
  }

  lemma RebootingStays(v: View, env: Env)
    requires v.leaf == FotaRebooting
    ensures Follow(Summarize(v), env.msg) == Summarize(v)
  {
  }

  /** Over every run, nineteen states, histories and timers are faithfully summarised by the simple fold. */
  lemma {:induction false} RunSummarizes(v: View, envs: seq<Env>)
    requires Inv(v)
    ensures Summarize(After(v, envs)) == FollowAll(Summarize(v), envs)
  {
    if envs != [] {
      var before := envs[..|envs| - 1];
      RunSummarizes(v, before);
      AlwaysInv(v, before);
      StepSummarizes(After(v, before), envs[|envs| - 1]);
      hide Inv, Step, Follow, Summarize;
    }
  }

  /** So from start-up on: every reachable state satisfies the invariant, and is what the messages so far
      add up to. */
  lemma FromStart(mode: State, sample: UInt32, update: UInt32, now: nat, ms: UInt32, envs: seq<Env>)
    requires ModeState(mode)
    ensures var w := After(Initial(mode, sample, update, now, ms), envs);
            && Inv(w)
            && Summarize(w)
               == FollowAll(Summary(if mode == BufferMode then Buffer else Passthrough, false, NoUpdate), envs)
  {
    hide Inv, After, FollowAll, Initial;
    var v := Initial(mode, sample, update, now, ms);
    StartsInv(mode, sample, update, now, ms);
    AlwaysInv(v, envs);
    RunSummarizes(v, envs);
  }

  /** What the cloud last said, if anything. */
  function LastHeard(connected: bool, envs: seq<Env>): bool {
    if envs == [] then connected
    else
      var msg := envs[|envs| - 1].msg;
      if msg.CloudConnected? then true
      else if msg.CloudDisconnected? then false
      else LastHeard(connected, envs[..|envs| - 1])
  }

  /** An update neither stops nor reboots along the way. */
  ghost predicate StaysInUpdate(v: View, envs: seq<Env>) {
    && StageOf(After(v, envs).leaf) != NoUpdate && After(v, envs).leaf != FotaRebooting
    && (envs != [] ==> StaysInUpdate(v, envs[..|envs| - 1]))
  }

  lemma {:induction false} UpdateRemembers(v: View, envs: seq<Env>)
    requires Inv(v) && StaysInUpdate(v, envs)
    ensures var s := Summarize(After(v, envs));
            s.mode == Summarize(v).mode && s.connected == LastHeard(Summarize(v).connected, envs)
  {
    if envs != [] {
      var before := envs[..|envs| - 1];
      UpdateRemembers(v, before);
      AlwaysInv(v, before);
      StepSummarizes(After(v, before), envs[|envs| - 1]);
      hide Inv, Step;
    }
  }

  lemma StillUpdating(v: View, envs: seq<Env>)
    requires StaysInUpdate(v, envs)
    ensures ModeOf(After(v, envs).leaf) == Update && After(v, envs).leaf != FotaRebooting
  {
  }

  /** A cancelled update resumes in the mode in which it began, with the connectivity last heard of. */
  lemma CancelledUpdateResumes(v: View, begin: Env, envs: seq<Env>, stop: Env)
    requires Inv(v) && ModeOf(v.leaf) != Update
    requires begin.msg == FotaEvent(DownloadingUpdate) && stop.msg.FotaEvent? && Stops(stop.msg.fota)
    requires StaysInUpdate(Step(v, begin), envs)
    ensures Summarize(Step(After(Step(v, begin), envs), stop))
         == Summary(ModeOf(v.leaf), LastHeard(Connected(v.leaf), envs), NoUpdate)
  {
    hide Inv, Step, LastHeard, After, StaysInUpdate;
    var u := Step(v, begin);
    StepKeepsInv(v, begin);
    StepSummarizes(v, begin);
    UpdateRemembers(u, envs);
    AlwaysInv(u, envs);
    StepSummarizes(After(u, envs), stop);
    StillUpdating(u, envs);
  }
}
