/** What the cloud's shadows make of the application's settings over whole runs: its intervals, and the storage
    mode it asks for. */
module MainSettings {
  import opened Common
  import opened MainSpec
  import opened MainRuns
  import opened MainDevice
  import MainTransitions

  function ActedOn(s: Summary, msg: Msg): seq<Params> {
    var shadow := Accepted(s, msg);
    if shadow.Some? then [shadow.value.params] else []
  }

  /** The parameters of the shadows that a run acts on, in order: of those that decode, while connected and outside
      updates. */
  function Shadows(s: Summary, envs: seq<Env>): seq<Params> {
    if envs == [] then []
    else
      var before := envs[..|envs| - 1];
      Shadows(s, before) + ActedOn(FollowAll(s, before), envs[|envs| - 1].msg)
  }

  /** The last sample interval that is not zero, or else the initial one. */
  function LastSample(ps: seq<Params>, initial: UInt32): UInt32 {
    if ps == [] then initial
    else if ps[|ps| - 1].sample != 0 then ps[|ps| - 1].sample else LastSample(ps[..|ps| - 1], initial)
  }

  function LastUpdate(ps: seq<Params>, initial: UInt32): UInt32 {
    if ps == [] then initial
    else if ps[|ps| - 1].update != 0 then ps[|ps| - 1].update else LastUpdate(ps[..|ps| - 1], initial)
  }

  function LastEffective(ps: seq<Params>): Option<Params> {
    if ps == [] then None
    else if Effective(ps[|ps| - 1]) then Some(ps[|ps| - 1]) else LastEffective(ps[..|ps| - 1])
  }

  predicate ValidlyBuffer(p: Params) {
    p.bufferModeValid && p.bufferMode
  }

  /** The storage modes asked for, in order. */
  function ModeRequests(outs: seq<Out>): seq<bool> {
    if outs == [] then []
    else ModeRequests(outs[..|outs| - 1]) + match outs[|outs| - 1] case ModeRequest(buffer) => [buffer] case _ => []
  }

  /** What the effective shadows ask for. */
  function Wishes(ps: seq<Params>): seq<bool> {
    if ps == [] then []
    else Wishes(ps[..|ps| - 1]) + if Effective(ps[|ps| - 1]) then [ValidlyBuffer(ps[|ps| - 1])] else []
  }

  lemma {:induction false} RequestsConcat(a: seq<Out>, b: seq<Out>)
    ensures ModeRequests(a + b) == ModeRequests(a) + ModeRequests(b)
  {
    if b == [] {
      assert a + b == a;
    } else {
      RequestsConcat(a, b[..|b| - 1]);
      assert (a + b)[..|a + b| - 1] == a + b[..|b| - 1];
    }
  }

  lemma {:induction false} NoRequests(outs: seq<Out>)
    requires forall out :: out in outs ==> !out.ModeRequest?
    ensures ModeRequests(outs) == []
  {
    if outs != [] {
      assert outs[|outs| - 1] in outs;
      NoRequests(outs[..|outs| - 1]);
    }
  }

  lemma OneRequest(buffer: bool)
    ensures ModeRequests([ModeRequest(buffer)]) == [buffer]
  {
    assert [ModeRequest(buffer)][..0] == [];
  }

  lemma RepliesAsk(d: Device, msg: Msg)
    ensures var shadow := Accepted(d.summary, msg);
            ModeRequests(Replies(d, msg)) == if shadow.Some? && Effective(shadow.value.params)
                                             then [ValidlyBuffer(shadow.value.params)] else []
  {
    var shadow := Accepted(d.summary, msg);
    if shadow.Some? && Effective(shadow.value.params) {
      var asked := ModeRequest(ValidlyBuffer(shadow.value.params));
      assert Replies(d, msg) == [asked] + Replies(d, msg)[1..];
      NoRequests(Replies(d, msg)[1..]);
      RequestsConcat([asked], Replies(d, msg)[1..]);
      OneRequest(asked.buffer);
    } else {
      NoRequests(Replies(d, msg));
    }
  }

  /** One message asks for what its shadow wishes. */
  lemma PublishesAsk(d: Device, env: Env)
    ensures ModeRequests(Publishes(d, env)) == ModeRequests(Replies(d, env.msg))
  {
    hide Replies, Orders, Sends, Polls, Begins, Follow, ModeRequests;
    var replies, orders := Replies(d, env.msg), Orders(d.summary.stage, Follow(d.summary, env.msg).stage);
    var ahead := Publishes(d, env)[..|Publishes(d, env)| - |replies| - |orders|];
    assert Publishes(d, env) == ahead + replies + orders;
    RequestsConcat(ahead + replies, orders);
    RequestsConcat(ahead, replies);
    NoRequests(ahead);
    OrdersAskNothing(d.summary.stage, Follow(d.summary, env.msg).stage);
  }

  lemma OrdersAskNothing(from: Stage, to: Stage)
    ensures ModeRequests(Orders(from, to)) == []
  {
    NoRequests(Orders(from, to));
  }

  lemma StepWishes(d: Device, env: Env)
    ensures ModeRequests(Publishes(d, env)) == Wishes(ActedOn(d.summary, env.msg))
  {
    hide Replies, Publishes, Effective, ModeRequests;
    PublishesAsk(d, env);
    RepliesAsk(d, env.msg);
    var ps := ActedOn(d.summary, env.msg);
    assert ps != [] ==> ps[..0] == [];
  }

  /** What one message adds. */
  lemma OneMore(d: Device, env: Env, ps: seq<Params>, sample: UInt32, update: UInt32)
    requires d.sample == LastSample(ps, sample) && d.update == LastUpdate(ps, update)
    ensures var w, more := Next(d, env), ps + ActedOn(d.summary, env.msg);
            && w.sample == LastSample(more, sample) && w.update == LastUpdate(more, update)
            && Wishes(more) == Wishes(ps) + ModeRequests(Publishes(d, env))
  {
    hide Begins, NextSearching, NextStart, NextWait, NextSend, Publishes, Follow, Effective, ModeRequests;
    StepWishes(d, env);
    var more := ps + ActedOn(d.summary, env.msg);
    assert more[..|ps|] == ps && (more == ps || more == ps + [more[|ps|]]);
  }

  lemma {:induction false} SummaryOnly(d: Device, envs: seq<Env>)
    ensures NextAll(d, envs).summary == FollowAll(d.summary, envs)
  {
    if envs != [] {
      SummaryOnly(d, envs[..|envs| - 1]);
    }
  }

  lemma {:induction false} DeviceSettles(d: Device, envs: seq<Env>)
    ensures var w, ps := NextAll(d, envs), Shadows(d.summary, envs);
            && w.sample == LastSample(ps, d.sample) && w.update == LastUpdate(ps, d.update)
            && ModeRequests(Story(d, envs)) == Wishes(ps)
  {
    if envs != [] {
      var before, env := envs[..|envs| - 1], envs[|envs| - 1];
      hide Next, Publishes, ActedOn, LastSample, LastUpdate, ModeRequests, Wishes, Follow;
      DeviceSettles(d, before);
      SummaryOnly(d, before);
      OneMore(NextAll(d, before), env, Shadows(d.summary, before), d.sample, d.update);
      RequestsConcat(Story(d, before), Publishes(NextAll(d, before), env));
    }
  }

  /** Over every run each interval is the last that such a shadow gave for it, and the storage modes asked for are
      those that its effective shadows wish, in this order. */
  lemma RunSettles(v: View, envs: seq<Env>)
    requires Ok(v)
    ensures var w, ps := After(v, envs), Shadows(Summarize(v), envs);
            && w.sample == LastSample(ps, v.sample) && w.update == LastUpdate(ps, v.update)
            && ModeRequests(w.outs) == ModeRequests(v.outs) + Wishes(ps)
  {
    hide Ok, Summarize, Story, NextAll, After, Shadows;
    RunShows(v, envs);
    DeviceSettles(Watch(v), envs);
    RequestsConcat(v.outs, Story(Watch(v), envs));
  }

  lemma {:induction false} LastWish(ps: seq<Params>)
    ensures Wishes(ps) == [] <==> LastEffective(ps) == None
    ensures Wishes(ps) != [] ==> Wishes(ps)[|Wishes(ps)| - 1] == ValidlyBuffer(LastEffective(ps).value)
  {
    if ps != [] {
      LastWish(ps[..|ps| - 1]);
    }
  }

  /** From start-up on a storage mode has been asked for exactly if an effective shadow has been acted on, and the
      last one asked for is buffer mode exactly if the last of them validly says so. */
  lemma LastRequestIff(mode: State, sample: UInt32, update: UInt32, now: nat, ms: UInt32, envs: seq<Env>)
    requires MainTransitions.ModeState(mode)
    ensures var w := After(Initial(mode, sample, update, now, ms), envs);
            var ps := Shadows(Summary(if mode == BufferMode then Buffer else Passthrough, false, NoUpdate), envs);
            var asked := ModeRequests(w.outs);
            && w.sample == LastSample(ps, sample) && w.update == LastUpdate(ps, update)
            && (asked == [] <==> LastEffective(ps) == None)
            && (asked != [] ==> (asked[|asked| - 1] <==> ValidlyBuffer(LastEffective(ps).value)))
  {
    hide Initial, After, Ok, Shadows, Effective;
    var v := Initial(mode, sample, update, now, ms);
    Boots(mode, sample, update, now, ms);
    NoRequests(v.outs);
    RunSettles(v, envs);
    LastWish(Shadows(Summarize(v), envs));
  }

  /** The mode reported and the mode asked for. */
  function ReportedMode(outs: seq<Out>): Option<bool> {
    if outs == [] then None
    else
      match outs[|outs| - 1]
      case Reported(params, _, _) => Some(params.bufferMode)
      case _ => ReportedMode(outs[..|outs| - 1])
  }

  /** An effective shadow is answered with the mode that it asks for, unless it is handled in buffer mode and says
      nothing valid of the mode: then buffer mode is reported and passthrough mode asked for. */
  lemma ReportsWishIff(d: Device, env: Env, shadow: Shadow)
    requires Accepted(d.summary, env.msg) == Some(shadow) && Effective(shadow.params)
    ensures var outs := Replies(d, env.msg);
            && ReportedMode(outs).Some? && |ModeRequests(outs)| == 1
            && (ReportedMode(outs).value == ModeRequests(outs)[0]
                <==> shadow.params.bufferModeValid || d.summary.mode != Buffer)
  {
    RepliesAsk(d, env.msg);
    var outs := Replies(d, env.msg);
    if outs[|outs| - 1] == ProvisioningRequest {
      assert outs[..|outs| - 1][|outs| - 2].Reported?;
    }
    hide ModeRequests;
  }
}
