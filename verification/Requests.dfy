/** One batch request: how it is answered, what its offer says, and what a clear after it leaves. */
module Requests {
  import opened Common
  import opened StorageSpec
  import opened Packing
  import opened StorageRuns
  import Slots

  function Lengths<R>(qs: seq<seq<R>>): (ns: seq<nat>)
    ensures |ns| == |qs|
  {
    seq(|qs|, u requires 0 <= u < |qs| => |qs[u]|)
  }

  /** What all stored records would take on the wire. */
  function StoredSize<R>(c: Config, qs: seq<seq<R>>): nat
    requires |qs| == |c.types|
  {
    SharesSize(c, Lengths(qs), 0)
  }

  ghost predicate HasUnframable<R>(c: Config, qs: seq<seq<R>>)
    requires |qs| == |c.types|
  {
    exists u :: 0 <= u < |qs| && Unframable(c, qs, u)
  }

  lemma SharesOfMore(n: nat, k: nat, room: nat, frame: nat)
    requires k < n && room - k * frame < frame
    ensures n * frame > room
  {
    Slots.GapsAreWide(k, n, frame);
  }

  /** Every type gives all it has exactly if everything fits. */
  lemma {:induction false} AllSharedIff<R>(c: Config, qs: seq<seq<R>>, shares: seq<nat>, t: nat, room: nat)
    requires SharesFrom(c, qs, shares, t, room)
    requires forall u :: t <= u < |qs| ==> !Unframable(c, qs, u)
    ensures (forall u :: t <= u < |qs| ==> shares[u] >= |qs[u]|) <==> SharesSize(c, Lengths(qs), t) <= room
    decreases |qs| - t
  {
    if t < |qs| {
      var n, frame := |qs[t]|, FrameSize(c, t);
      SharesNext(c, qs, shares, t, room);
      assert SharesSize(c, Lengths(qs), t) == n * frame + SharesSize(c, Lengths(qs), t + 1);
      hide Unframable, FrameSize, SharesFrom, Fit, SharesSize, Lengths;
      if shares[t] < n {
        SharesOfMore(n, shares[t], room, frame);
      } else {
        AllSharedIff(c, qs, shares, t + 1, room - shares[t] * frame);
      }
    }
  }

  lemma LeftIsEmptyIff<R>(qs: seq<seq<R>>, shares: seq<nat>)
    requires SharesOk(qs, shares)
    ensures TotalCount(StorageSpec.Left(qs, shares)) == 0 <==> forall u :: 0 <= u < |qs| ==> shares[u] >= |qs[u]|
  {
    var left := StorageSpec.Left(qs, shares);
    TotalZero(left);
    assert forall u :: 0 <= u < |qs| ==> |left[u]| == |qs[u]| - shares[u];
    hide TotalCount;
  }

  /** A batch leaves records behind exactly if it fails or not everything fits the batch buffer. */
  lemma PackLeavesIff<R>(c: Config, qs: seq<seq<R>>)
    requires |qs| == |c.types|
    ensures TotalCount(Pack(c, qs).left) > 0 <==> HasUnframable(c, qs) || StoredSize(c, qs) > c.budget
  {
    hide TotalCount, Shares, SharesSize, Unframable, FirstUnframable;
    var shares := Shares(c, qs, 0, c.budget);
    LeftIsEmptyIff(qs, shares);
    WholeShares(c, qs);
    if HasUnframable(c, qs) {
      StoppedShare(c, qs, shares, 0, c.budget);
    } else {
      AllSharedIff(c, qs, shares, 0, c.budget);
    }
  }

  /** The first type that cannot be framed gives nothing. */
  lemma {:induction false} StoppedShare<R>(c: Config, qs: seq<seq<R>>, shares: seq<nat>, t: nat, room: nat)
    requires SharesFrom(c, qs, shares, t, room)
    ensures var u := FirstUnframable(c, qs, t); u < |qs| ==> shares[u] == 0 < |qs[u]|
    decreases |qs| - t
  {
    hide Shares, Fit;
    if t < |qs| {
      if Unframable(c, qs, t) {
        SharesAfterStop(c, qs, shares, t, room);
      } else {
        SharesNext(c, qs, shares, t, room);
        StoppedShare(c, qs, shares, t + 1, room - shares[t] * FrameSize(c, t));
      }
    }
  }

  /** An offer carries the count of its batch. That is the number of records stored exactly if all of them
      fit the batch buffer and the field. */
  lemma OfferCountsAllIff<R>(c: Config, v: View<R>, id: UInt32)
    requires |v.queues| == |c.types| && Start(c, v, id).err == 0
    ensures var s, n := Start(c, v, id), TotalCount(v.queues);
            && s.reply.BatchAvailable? && s.reply.items == Min(|s.view.pipe|, UINT16_MAX)
            && (s.reply.items == n <==> StoredSize(c, v.queues) <= c.budget && n <= UINT16_MAX)
            && (s.reply.more <==> StoredSize(c, v.queues) > c.budget)
  {
    PackCount(c, v.queues);
    PackLeavesIff(c, v.queues);
    PackFailsIff(c, v.queues);
    PackMoreIff(c, v.queues);
    TotalZero(Pack(c, v.queues).left);
    hide Pack, TotalCount, StoredSize;
  }

  /** A batch request is answered once exactly if it does not meet the idle module or a session can start
      there; else the same answer is published twice. */
  lemma AnsweredOnceIff<R>(c: Config, v: View<R>, id: UInt32)
    requires 0 < c.cap && |v.queues| == |c.types|
    ensures var outs := Step(c, v, Channel(BatchRequest(id))).1;
            && (|outs| == 1 <==>
                v.leaf != BufferIdle || (id != 0 && TotalCount(v.queues) > 0 && !HasUnframable(c, v.queues)))
            && (|outs| != 1 ==>
                outs == if id != 0 && TotalCount(v.queues) == 0 then [Publish(BatchEmpty(id)), Publish(BatchEmpty(id))]
                        else [Publish(BatchError(id)), Publish(BatchError(id))])
  {
    hide Pack, TotalCount;
    PackFailsIff(c, v.queues);
  }

  /** What becomes of a batch request. */
  datatype Verdict = Busy | Refused | Nothing | Offered

  /** Another consumer's session is in the way; batches are not served, the id is no id, or the records cannot be
      framed; there are none; or there is an offer. */
  ghost function Judge<R>(c: Config, v: View<R>, id: UInt32): Verdict
    requires |v.queues| == |c.types|
  {
    if v.leaf == PipeActive && v.session.id != 0 && v.session.id != id then Busy
    else if v.leaf == Passthrough || id == 0 then Refused
    else if TotalCount(v.queues) == 0 then Nothing
    else if HasUnframable(c, v.queues) then Refused
    else Offered
  }

  /** The answer, once or twice, says which, to whom. */
  lemma AnswerSays<R>(c: Config, v: View<R>, id: UInt32)
    requires 0 < c.cap && |v.queues| == |c.types|
    ensures var outs := Step(c, v, Channel(BatchRequest(id))).1;
            && outs != []
            && forall o :: o in outs ==>
                 && o.Publish?
                 && match Judge(c, v, id)
                    case Busy => o.msg == BatchBusy(id)
                    case Refused => o.msg == BatchError(id)
                    case Nothing => o.msg == BatchEmpty(id)
                    case Offered => o.msg.BatchAvailable? && o.msg.id == id
  {
    PackFailsIff(c, v.queues);
    hide Pack, TotalCount;
  }

  /** A busy answer and one in passthrough mode leave everything alone. An offer leaves its session, with the id
      asked for, its batch in the pipe, and its timeout armed; no other answer moves a record, except that a
      batch that cannot be framed has been begun. */
  lemma RequestLeaves<R>(c: Config, v: View<R>, id: UInt32)
    requires 0 < c.cap && |v.queues| == |c.types|
    ensures var w, p, n := Step(c, v, Channel(BatchRequest(id))).0, Pack(c, v.queues), TotalCount(v.queues);
            match Judge(c, v, id)
            case Busy => w == v
            case Refused => (v.leaf == Passthrough ==> w == v) && (id == 0 ==> w.pipe == v.pipe && w.queues == v.queues)
            case Nothing => w.leaf == PipeActive && w.pipe == v.pipe && w.queues == v.queues
            case Offered => w == View(PipeActive, Session(id, n, |p.moved|, p.more), p.left, p.moved, true)
  {
    PackFailsIff(c, v.queues);
    hide Pack, TotalCount;
  }

  /** A batch request and then a clear, from idle. */
  function RequestThenClear<R>(id: UInt32): seq<Event<R>> {
    [Message(Channel(BatchRequest(id))), Message(Channel(Clear))]
  }

  /** They leave records in the backend exactly if there were some and the request, being refused or too
      small for them, did not take them all out: the session it opens refuses the clear. */
  lemma ClearKeepsRecordsIff<R>(c: Config, v: View<R>, id: UInt32)
    requires 0 < c.cap && |v.queues| == |c.types| && v.leaf == BufferIdle
    ensures var w := After(c, v, RequestThenClear(id));
            TotalCount(w.queues) > 0
            <==> TotalCount(v.queues) > 0
                 && (id == 0 || HasUnframable(c, v.queues) || StoredSize(c, v.queues) > c.budget)
  {
    var es: seq<Event<R>> := RequestThenClear(id);
    assert es[..1][..0] == [] && es[..|es| - 1] == es[..1];
    assert After(c, v, es[..1]) == Next(c, v, es[0]);
    assert After(c, v, es) == Next(c, Next(c, v, es[0]), es[1]);
    RequestOpens(c, v, id);
    ClearRefused(c, Next(c, v, es[0]));
    hide After, TotalCount, StoredSize, HasUnframable, Next;
  }

  lemma ClearRefused<R>(c: Config, v: View<R>)
    requires 0 < c.cap && |v.queues| == |c.types| && v.leaf == PipeActive
    ensures Next(c, v, Message(Channel(Clear))) == v
  {
  }

  lemma RequestOpens<R>(c: Config, v: View<R>, id: UInt32)
    requires 0 < c.cap && |v.queues| == |c.types| && v.leaf == BufferIdle
    ensures var w := Next(c, v, Message(Channel(BatchRequest(id))));
            && w.leaf == PipeActive
            && w.queues == if id == 0 || TotalCount(v.queues) == 0 then v.queues else Pack(c, v.queues).left
    ensures TotalCount(Pack(c, v.queues).left) > 0 <==> HasUnframable(c, v.queues) || StoredSize(c, v.queues) > c.budget
  {
    hide Pack, TotalCount, StoredSize, HasUnframable;
    PackLeavesIff(c, v.queues);
  }

  /** A request for a storage mode is answered once: with the mode asked for, in which the module then is, or, for
      passthrough mode during a session only, with a rejection that changes nothing. */
  lemma ModeAnswered<R>(c: Config, v: View<R>, passthrough: bool)
    requires 0 < c.cap && |v.queues| == |c.types|
    ensures var (w, outs) := Step(c, v, Channel(if passthrough then PassthroughRequest else BufferRequest));
            && |outs| == 1 && outs[0].Publish?
            && match outs[0].msg
               case ModePassthrough => passthrough && w.leaf == Passthrough
               case ModeBuffer => !passthrough && w.leaf != Passthrough && (v.leaf != Passthrough ==> w == v)
               case ModeRejected => passthrough && v.leaf == PipeActive && w == v
               case _ => false
  {
    hide Pack, TotalCount, AllData;
  }

  /** Besides these answers, those to batch requests, and data, the module publishes one thing: the close of a
      session that times out. */
  lemma ClosesOnTimeout<R>(c: Config, v: View<R>, input: Input<R>)
    requires 0 < c.cap && |v.queues| == |c.types| && InputOk(c, input) && !input.Sample?
    requires input.Channel? ==>
               && !input.msg.BatchRequest? && !input.msg.Flush?
               && !input.msg.PassthroughRequest? && !input.msg.BufferRequest?
    ensures Step(c, v, input).1
         == if input == SessionTimeout && v.leaf == PipeActive then [Publish(BatchClose(v.session.id))] else []
  {
    hide Pack, TotalCount, AllData;
  }
}
