/** What the framework makes of each transition of the application: exits, entries and initial transitions
    along the chart add up to the rows of the flat table. */
module MainTransitions {
  import opened Common
  import opened MainSpec
  import Smf

  /** The sample timer runs only while waiting, the send timer only in buffer mode, neither in an update. */
  ghost predicate Owned(v: View) {
    && IsLeaf(v.leaf)
    && (!Waiting(v.leaf) ==> v.sampleTimer == None)
    && (ModeOf(v.leaf) != Buffer ==> v.sendTimer == None)
  }

  lemma EntriesOf(states: seq<State>, v: View, env: Env)
    ensures |states| == 1 ==> Entries(states, v, env) == Entry(states[0], v, env)
    ensures |states| == 2 ==> Entries(states, v, env) == Entry(states[1], Entry(states[0], v, env), env)
    ensures |states| == 3 ==>
              Entries(states, v, env) == Entry(states[2], Entry(states[1], Entry(states[0], v, env), env), env)
    ensures |states| == 4 ==>
              Entries(states, v, env)
              == Entry(states[3], Entry(states[2], Entry(states[1], Entry(states[0], v, env), env), env), env)
    decreases |states|
  {
    if states != [] {
      EntriesOf(states[1..], Entry(states[0], v, env), env);
    }
  }

  lemma ExitsOf(states: seq<State>, v: View)
    ensures |states| == 1 ==> Exits(states, v) == Exit(states[0], v)
    ensures |states| == 2 ==> Exits(states, v) == Exit(states[0], Exit(states[1], v))
    ensures |states| == 3 ==> Exits(states, v) == Exit(states[0], Exit(states[1], Exit(states[2], v)))
    ensures |states| == 4 ==>
              Exits(states, v) == Exit(states[0], Exit(states[1], Exit(states[2], Exit(states[3], v))))
    decreases |states|
  {
    if states != [] {
      ExitsOf(states[..|states| - 1], Exit(states[|states| - 1], v));
    }
  }

  /** A transition that leaves the states below depth `top`. */
  lemma TransitionOf(v: View, executing: State, target: State, mode: State, env: Env, top: nat)
    requires mode == BufferMode || mode == PassthroughMode
    requires Path(executing) <= Path(v.leaf) && executing != target
    requires top <= |Path(executing)| && top <= |Path(target)| && Path(executing)[..top] == Path(target)[..top]
    requires top < |Path(executing)| && top < |Path(target)| ==> Path(executing)[top] != Path(target)[top]
    ensures var leaf := LeafOf(target, mode);
            && top <= |Path(leaf)| && top <= |Path(v.leaf)|
            && Transition(v, executing, target, mode, env)
               == Entries(Path(leaf)[top..], Exits(Path(v.leaf)[top..], v).(leaf := leaf), env)
  {
    hide Entries, Exits, LeafOf, Path, IsLeaf;
    Smf.SharedIs(Path(executing), Path(target), top);
    assert Path(executing) != Path(target);
  }

  /** A leaf left for itself. */
  lemma SelfTransitionOf(v: View, mode: State, env: Env)
    requires ModeState(mode) && IsLeaf(v.leaf)
    ensures Transition(v, v.leaf, v.leaf, mode, env) == Entry(v.leaf, Exit(v.leaf, v).(leaf := v.leaf), env)
  {
    var top := |Path(v.leaf)| - 1;
    assert Path(v.leaf)[top..] == [v.leaf];
    ExitsOf([v.leaf], v);
    EntriesOf([v.leaf], Exit(v.leaf, v).(leaf := v.leaf), env);
  }

  predicate ModeState(s: State) {
    s == BufferMode || s == PassthroughMode
  }

  function BufferState(connected: bool): State {
    if connected then BufferConnected else BufferDisconnected
  }

  function SamplingState(connected: bool): State {
    if connected then BufferConnectedSampling else BufferDisconnectedSampling
  }

  function WaitingState(connected: bool): State {
    if connected then BufferConnectedWaiting else BufferDisconnectedWaiting
  }

  function PassthroughLeaf(connected: bool): State {
    if connected then PassthroughConnectedSampling else PassthroughDisconnected
  }

  lemma BufferReconnects(v: View, connected: bool, mode: State, env: Env)
    requires ModeState(mode)
    requires Owned(v) && ModeOf(v.leaf) == Buffer && Connected(v.leaf) != connected
    ensures Path(BufferState(!connected)) <= Path(v.leaf)
    ensures Transition(v, BufferState(!connected), BufferState(connected), mode, env)
         == GoBuffer(v, connected, false, env)
  {
    var sampling := SamplingState(connected);
    hide Transition, Entries, Exits;
    TransitionOf(v, BufferState(!connected), BufferState(connected), mode, env, 2);
    assert Path(sampling)[2..] == [BufferState(connected), sampling];
    assert Path(v.leaf)[2..] == [BufferState(!connected), v.leaf];
    ExitsOf(Path(v.leaf)[2..], v);
    EntriesOf(Path(sampling)[2..], Exits(Path(v.leaf)[2..], v).(leaf := sampling), env);
  }

  lemma BufferToPassthrough(v: View, connected: bool, mode: State, env: Env)
    requires ModeState(mode)
    requires Owned(v) && ModeOf(v.leaf) == Buffer && Connected(v.leaf) == connected
    ensures Path(BufferState(connected)) <= Path(v.leaf)
    ensures var target := if connected then PassthroughConnected else PassthroughDisconnected;
            Transition(v, BufferState(connected), target, mode, env) == GoPassthrough(v, connected, true, env)
  {
    var target := if connected then PassthroughConnected else PassthroughDisconnected;
    var leaf := PassthroughLeaf(connected);
    hide Transition, Entries, Exits;
    TransitionOf(v, BufferState(connected), target, mode, env, 1);
    assert Path(v.leaf)[1..] == [BufferMode, BufferState(connected), v.leaf];
    assert Path(leaf)[1..] == if connected then [PassthroughMode, PassthroughConnected, leaf]
                              else [PassthroughMode, leaf];
    ExitsOf(Path(v.leaf)[1..], v);
    EntriesOf(Path(leaf)[1..], Exits(Path(v.leaf)[1..], v).(leaf := leaf), env);
  }

  /** From waiting to sampling, asked for by the leaf. */
  lemma BufferSamples(v: View, connected: bool, mode: State, env: Env)
    requires ModeState(mode) && v.leaf == WaitingState(connected)
    ensures Transition(v, v.leaf, SamplingState(connected), mode, env) == Sample(v, connected, env)
  {
    var leaf := SamplingState(connected);
    hide Transition, Entries, Exits;
    TransitionOf(v, v.leaf, leaf, mode, env, 3);
    assert Path(v.leaf)[3..] == [v.leaf] && Path(leaf)[3..] == [leaf];
    ExitsOf([v.leaf], v);
    EntriesOf([leaf], Exit(v.leaf, v).(leaf := leaf), env);
  }

  /** From sampling to waiting, also when the entry action of sampling asks for it. */
  lemma BufferWaits(v: View, connected: bool, mode: State, env: Env)
    requires ModeState(mode) && v.leaf == SamplingState(connected)
    ensures Transition(v, v.leaf, WaitingState(connected), mode, env)
         == Wait(v.(leaf := WaitingState(connected)), v.sample, env.now)
  {
    var leaf := WaitingState(connected);
    hide Transition, Entries, Exits;
    TransitionOf(v, v.leaf, leaf, mode, env, 3);
    assert Path(v.leaf)[3..] == [v.leaf] && Path(leaf)[3..] == [leaf];
    ExitsOf([v.leaf], v);
    EntriesOf([leaf], Exit(v.leaf, v).(leaf := leaf), env);
  }

  /** A waiting state left for itself restarts its timer. */
  lemma WaitsAgain(v: View, mode: State, env: Env)
    requires ModeState(mode) && Waiting(v.leaf)
    ensures Transition(v, v.leaf, v.leaf, mode, env)
         == Wait(v, if ModeOf(v.leaf) == Buffer then v.sample else v.update, env.now)
  {
    hide Transition;
    SelfTransitionOf(v, mode, env);
  }

  /** Leaving a leaf of passthrough mode stops its sample timer; leaving the mode changes nothing more. */
  lemma PassthroughExits(v: View)
    requires Owned(v) && ModeOf(v.leaf) == Passthrough
    ensures |Path(v.leaf)| >= 3 && Exits(Path(v.leaf)[2..], v) == v.(sampleTimer := None)
    ensures Exits(Path(v.leaf)[1..], v) == v.(sampleTimer := None)
  {
    hide Exits;
    assert Path(v.leaf)[2..] == if Connected(v.leaf) then [PassthroughConnected, v.leaf] else [v.leaf];
    assert Path(v.leaf)[1..] == if Connected(v.leaf) then [PassthroughMode, PassthroughConnected, v.leaf]
                                else [PassthroughMode, v.leaf];
    ExitsOf(Path(v.leaf)[2..], v);
    ExitsOf(Path(v.leaf)[1..], v);
  }

  lemma PassthroughEntries(v: View, connected: bool, env: Env)
    ensures var leaf := PassthroughLeaf(connected);
            && |Path(leaf)| >= 3
            && Entries(Path(leaf)[2..], v.(sampleTimer := None, leaf := leaf), env)
               == GoPassthrough(v, connected, false, env)
  {
    hide Entries;
    var leaf := PassthroughLeaf(connected);
    assert Path(leaf)[2..] == if connected then [PassthroughConnected, leaf] else [leaf];
    EntriesOf(Path(leaf)[2..], v.(sampleTimer := None, leaf := leaf), env);
  }

  /** Passthrough mode enters its connectivity again, whoever asks: the mode state, or the disconnected one. */
  lemma PassthroughReconnects(v: View, executing: State, connected: bool, mode: State, env: Env)
    requires ModeState(mode) && Owned(v) && ModeOf(v.leaf) == Passthrough
    requires executing == PassthroughMode || (executing == v.leaf == PassthroughDisconnected && connected)
    ensures Path(executing) <= Path(v.leaf)
    ensures Transition(v, executing, PassthroughLeaf(connected), mode, env) == GoPassthrough(v, connected, false, env)
  {
    hide Transition, Entries, Exits, GoPassthrough, Owned;
    TransitionOf(v, executing, PassthroughLeaf(connected), mode, env, 2);
    PassthroughExits(v);
    PassthroughEntries(v, connected, env);
  }

  lemma BufferEntries(v: View, connected: bool, env: Env)
    requires v.sampleTimer == None
    ensures var leaf := SamplingState(connected);
            && |Path(leaf)| >= 3
            && Entries(Path(leaf)[1..], v.(leaf := leaf), env) == GoBuffer(v, connected, true, env)
  {
    hide Entries;
    var leaf := SamplingState(connected);
    assert Path(leaf)[1..] == [BufferMode, BufferState(connected), leaf];
    EntriesOf(Path(leaf)[1..], v.(leaf := leaf), env);
  }

  lemma PassthroughToBuffer(v: View, connected: bool, mode: State, env: Env)
    requires ModeState(mode) && Owned(v) && ModeOf(v.leaf) == Passthrough && Connected(v.leaf) == connected
    ensures var executing := if connected then PassthroughConnected else PassthroughDisconnected;
            && Path(executing) <= Path(v.leaf)
            && Transition(v, executing, BufferState(connected), mode, env) == GoBuffer(v, connected, true, env)
  {
    hide Transition, Entries, Exits, GoBuffer, Owned;
    var executing := if connected then PassthroughConnected else PassthroughDisconnected;
    TransitionOf(v, executing, BufferState(connected), mode, env, 1);
    PassthroughExits(v);
    BufferEntries(v.(sampleTimer := None), connected, env);
    TimerForgotten(v, connected, env);
  }

  /** Entering buffer mode does not depend on the sample timer. */
  lemma TimerForgotten(v: View, connected: bool, env: Env)
    ensures GoBuffer(v.(sampleTimer := None), connected, true, env) == GoBuffer(v, connected, true, env)
  {
  }

  lemma PassthroughMoves(v: View, target: State, mode: State, env: Env)
    requires ModeState(mode)
    requires (v.leaf, target) == (PassthroughConnectedSampling, PassthroughConnectedWaiting)
          || (v.leaf, target) == (PassthroughConnectedWaiting, PassthroughConnectedSampling)
    ensures Transition(v, v.leaf, target, mode, env)
         == if Waiting(target) then Wait(v.(leaf := target), v.update, env.now) else SamplePassthroughFrom(v, env)
  {
    hide Transition, Entries, Exits;
    TransitionOf(v, v.leaf, target, mode, env, 3);
    assert Path(v.leaf)[3..] == [v.leaf] && Path(target)[3..] == [target];
    ExitsOf([v.leaf], v);
    EntriesOf([target], Exit(v.leaf, v).(leaf := target), env);
  }

  function SamplePassthroughFrom(v: View, env: Env): View {
    SamplePassthrough(v.(sampleTimer := None), env)
  }

  /** Leaving a storage mode at its root stops its timers and publishes nothing. */
  lemma ModesExit(v: View)
    requires Owned(v) && ModeOf(v.leaf) != Update
    ensures Path(Running) <= Path(v.leaf) && Exits(Path(v.leaf), v) == Stopped(v)
  {
    hide Exits;
    ExitsOf(Path(v.leaf), v);
  }

  lemma UpdateBegins(v: View, mode: State, env: Env)
    requires ModeState(mode) && Owned(v) && ModeOf(v.leaf) != Update
    ensures Path(Running) <= Path(v.leaf)
    ensures Transition(v, Running, Fota, mode, env) == Stopped(v).(leaf := FotaDownloading)
  {
    hide Transition, Entries, Exits;
    TransitionOf(v, Running, Fota, mode, env, 0);
    assert Path(v.leaf)[0..] == Path(v.leaf);
    ModesExit(v);
    hide Exit;
    assert Path(FotaDownloading)[0..] == [Fota, FotaDownloading];
    EntriesOf([Fota, FotaDownloading], Exits(Path(v.leaf), v).(leaf := FotaDownloading), env);
  }

  lemma UpdateResumesBuffer(v: View, connected: bool, mode: State, env: Env)
    requires ModeState(mode) && Owned(v) && ModeOf(v.leaf) == Update
    ensures Path(Fota) <= Path(v.leaf)
    ensures Transition(v, Fota, BufferState(connected), mode, env) == GoBuffer(v, connected, true, env)
  {
    var leaf := SamplingState(connected);
    hide Transition, Entries, Exits;
    TransitionOf(v, Fota, BufferState(connected), mode, env, 0);
    assert Path(v.leaf)[0..] == [Fota, v.leaf];
    assert Path(leaf)[0..] == [Running, BufferMode, BufferState(connected), leaf];
    ExitsOf([Fota, v.leaf], v);
    EntriesOf([Running, BufferMode, BufferState(connected), leaf], v.(leaf := leaf), env);
  }

  lemma UpdateResumesPassthrough(v: View, connected: bool, mode: State, env: Env)
    requires ModeState(mode) && Owned(v) && ModeOf(v.leaf) == Update
    ensures Path(Fota) <= Path(v.leaf)
    ensures Transition(v, Fota, PassthroughLeaf(connected), mode, env) == GoPassthrough(v, connected, true, env)
  {
    var leaf := PassthroughLeaf(connected);
    hide Transition, Entries, Exits;
    TransitionOf(v, Fota, leaf, mode, env, 0);
    assert Path(v.leaf)[0..] == [Fota, v.leaf];
    assert Path(leaf)[0..] == if connected then [Running, PassthroughMode, PassthroughConnected, leaf]
                              else [Running, PassthroughMode, leaf];
    ExitsOf([Fota, v.leaf], v);
    EntriesOf(Path(leaf), v.(leaf := leaf), env);
  }

  lemma UpdateResumes(v: View, mode: State, env: Env)
    requires ModeState(mode) && Owned(v) && ModeOf(v.leaf) == Update && HistoryOk(v)
    ensures Path(Fota) <= Path(v.leaf)
    ensures Transition(v, Fota, v.history, mode, env) == Resume(v, env)
  {
    hide Transition, GoBuffer, GoPassthrough;
    if v.history == BufferDisconnected || v.history == BufferConnected {
      UpdateResumesBuffer(v, v.history == BufferConnected, mode, env);
    } else {
      UpdateResumesPassthrough(v, v.history == PassthroughConnectedSampling, mode, env);
    }
  }

  lemma UpdateMoves(v: View, target: State, mode: State, env: Env)
    requires ModeState(mode) && ModeOf(v.leaf) == Update && IsLeaf(v.leaf)
    requires ModeOf(target) == Update && IsLeaf(target) && target != v.leaf
    ensures Transition(v, v.leaf, target, mode, env) == Entry(target, v.(leaf := target), env)
  {
    hide Transition, Entries, Exits;
    TransitionOf(v, v.leaf, target, mode, env, 1);
    assert Path(v.leaf)[1..] == [v.leaf] && Path(target)[1..] == [target];
    ExitsOf([v.leaf], v);
    EntriesOf([target], v.(leaf := target), env);
  }
}
