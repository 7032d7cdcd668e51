/** How `populate_pipe` gets there: the state after `k` records of one type, and after `t` types. */
module Filling {
  import opened StorageSpec
  import opened Packing

  /** The first `k` records of type `t` have moved. */
  function TakenFrom<R>(v: View<R>, t: nat, k: nat): View<R>
    requires t < |v.queues| && k <= |v.queues[t]|
  {
    v.(queues := v.queues[t := v.queues[t][k..]],
       pipe := v.pipe + Items(t, v.queues[t][..k]),
       session := v.session.(sent := v.session.sent + k))
  }

  function MoreIf<R>(v: View<R>, more: bool): View<R> {
    if more then v.(session := v.session.(more := true)) else v
  }

  lemma TakenNone<R>(v: View<R>, t: nat)
    requires t < |v.queues|
    ensures TakenFrom(v, t, 0) == v
  {
    assert v.queues[t := v.queues[t][0..]] == v.queues;
    assert v.pipe + Items(t, v.queues[t][..0]) == v.pipe;
  }

  lemma TakenNext<R>(v: View<R>, t: nat, k: nat)
    requires t < |v.queues| && k < |v.queues[t]|
    ensures var w := TakenFrom(v, t, k);
            && w.queues[t] != []
            && TakenFrom(v, t, k + 1) == TakenFrom(w, t, 1)
            && Items(t, w.queues[t][..1]) == [Item(t, w.queues[t][0])]
  {
    var q, w := v.queues[t], TakenFrom(v, t, k);
    assert q[k..][1..] == q[k + 1..];
    assert w.queues[t := q[k + 1..]] == v.queues[t := q[k + 1..]];
    ItemsSnoc(t, q, k);
  }

  /** The types below `t` have given their shares. */
  ghost predicate Filled<R>(v: View<R>, shares: seq<nat>, t: nat, w: View<R>) {
    && SharesOk(v.queues, shares) && t <= |v.queues| == |w.queues|
    && (forall u :: 0 <= u < |v.queues| ==> w.queues[u] == if u < t then v.queues[u][shares[u]..] else v.queues[u])
    && w.pipe + Moved(v.queues, shares, t) == v.pipe + Moved(v.queues, shares, 0)
    && w == v.(queues := w.queues, pipe := w.pipe, session := w.session)
    && w.session == v.session.(sent := w.session.sent, more := w.session.more)
    && w.session.sent + |v.pipe| == v.session.sent + |w.pipe|
    && (w.session.more <==> v.session.more || exists u :: 0 <= u < t && shares[u] < |v.queues[u]|)
  }

  lemma FilledNone<R>(v: View<R>, shares: seq<nat>)
    requires SharesOk(v.queues, shares)
    ensures Filled(v, shares, 0, v)
  {
  }

  lemma FilledNext<R>(v: View<R>, shares: seq<nat>, t: nat, w: View<R>)
    requires Filled(v, shares, t, w) && t < |v.queues|
    ensures Filled(v, shares, t + 1, MoreIf(TakenFrom(w, t, shares[t]), shares[t] < |v.queues[t]|))
  {
    var more := shares[t] < |v.queues[t]|;
    var w' := MoreIf(TakenFrom(w, t, shares[t]), more);
    var gave, rest := Items(t, v.queues[t][..shares[t]]), Moved(v.queues, shares, t + 1);
    assert w'.pipe + rest == w.pipe + (gave + rest);
    assert (exists u :: 0 <= u < t + 1 && shares[u] < |v.queues[u]|)
      <==> more || exists u :: 0 <= u < t && shares[u] < |v.queues[u]|;
  }

  /** The loop of `populate_pipe` has `room` bytes left when it comes to type `t`. */
  ghost predicate Reached<R>(c: Config, v: View<R>, shares: seq<nat>, t: nat, room: nat, w: View<R>) {
    && SharesFrom(c, v.queues, shares, t, room)
    && Filled(v, shares, t, w)
  }

  lemma ReachedNow<R>(c: Config, v: View<R>, shares: seq<nat>, t: nat, room: nat, w: View<R>)
    requires Reached(c, v, shares, t, room, w) && t < |v.queues|
    ensures |v.queues| == |w.queues| == |c.types| && w.queues[t] == v.queues[t]
  {
  }

  lemma ReachedNext<R>(c: Config, v: View<R>, shares: seq<nat>, t: nat, room: nat, w: View<R>)
    requires Reached(c, v, shares, t, room, w) && t < |v.queues| && !Unframable(c, v.queues, t)
    ensures w.queues[t] == v.queues[t]
    ensures var k := Fit(|w.queues[t]|, room, FrameSize(c, t));
            && k * FrameSize(c, t) <= room
            && Reached(c, v, shares, t + 1, room - k * FrameSize(c, t), MoreIf(TakenFrom(w, t, k), k < |w.queues[t]|))
  {
    SharesNext(c, v.queues, shares, t, room);
    FilledNext(v, shares, t, w);
  }

  lemma {:induction false} NothingMoved<R>(qs: seq<seq<R>>, shares: seq<nat>, t: nat)
    requires SharesOk(qs, shares) && t <= |qs|
    requires forall u :: t <= u < |qs| ==> shares[u] == 0
    ensures Moved(qs, shares, t) == []
    decreases |qs| - t
  {
    if t < |qs| {
      NothingMoved(qs, shares, t + 1);
    }
  }

  function Batched<R>(v: View<R>, p: Packed<R>): View<R> {
    v.(queues := p.left, pipe := p.moved,
       session := v.session.(sent := v.session.sent + |p.moved|, more := p.more))
  }

  lemma FilledEnd<R>(v: View<R>, shares: seq<nat>, t: nat, w: View<R>, failed: bool)
    requires Filled(v, shares, t, w) && v.pipe == [] && !v.session.more
    requires forall u :: t <= u < |v.queues| ==> shares[u] == 0
    ensures var more := exists u :: 0 <= u < t && shares[u] < |v.queues[u]|;
            w == Batched(v, Packed(Moved(v.queues, shares, 0), Left(v.queues, shares), more, failed))
  {
    NothingMoved(v.queues, shares, t);
    assert w.pipe + [] == w.pipe && [] + Moved(v.queues, shares, 0) == Moved(v.queues, shares, 0);
    assert w.queues == Left(v.queues, shares);
  }

  /** The loop ends with the batch of the closed form, at the last type or at one that cannot be framed. */
  lemma ReachedEnd<R>(c: Config, v: View<R>, shares: seq<nat>, t: nat, room: nat, w: View<R>)
    requires Reached(c, v, shares, t, room, w) && shares == Shares(c, v.queues, 0, c.budget)
    requires t == FirstUnframable(c, v.queues, 0)
    requires !v.session.more && v.pipe == []
    ensures w == Batched(v, Pack(c, v.queues))
    ensures Pack(c, v.queues).failed <==> t < |v.queues|
  {
    if t < |v.queues| {
      SharesAfterStop(c, v.queues, shares, t, room);
    }
    hide SharesFrom, Filled, Moved, Left, Shares, FirstUnframable;
    FilledEnd(v, shares, t, w, t < |v.queues|);
  }
}
