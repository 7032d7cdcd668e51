/** What one batch does: it conserves the records of every type, respects the buffer, reports leftovers
    and is as large as it can be. */
module Packing {
  import opened StorageSpec

  lemma {:induction false} OfTypeConcat<R>(a: seq<Item<R>>, b: seq<Item<R>>, ty: nat)
    ensures OfType(a + b, ty) == OfType(a, ty) + OfType(b, ty)
  {
    if b == [] {
      assert a + b == a;
    } else {
      var front := b[..|b| - 1];
      OfTypeConcat(a, front, ty);
      assert (a + b)[..|a + b| - 1] == a + front;
    }
  }

  lemma {:induction false} OfTypeItems<R>(t: nat, recs: seq<R>, ty: nat)
    ensures OfType(Items(t, recs), ty) == if t == ty then recs else []
  {
    if recs != [] {
      var front := recs[..|recs| - 1];
      OfTypeItems(t, front, ty);
      assert Items(t, recs)[..|recs| - 1] == Items(t, front);
    }
  }

  /** Each type gives exactly its share. */
  lemma {:induction false} MovedOfType<R>(qs: seq<seq<R>>, shares: seq<nat>, t: nat, u: nat)
    requires SharesOk(qs, shares) && t <= |qs| && u < |qs|
    ensures OfType(Moved(qs, shares, t), u) == if t <= u then qs[u][..shares[u]] else []
    decreases |qs| - t
  {
    if t < |qs| {
      MovedOfType(qs, shares, t + 1, u);
      OfTypeConcat(Items(t, qs[t][..shares[t]]), Moved(qs, shares, t + 1), u);
      OfTypeItems(t, qs[t][..shares[t]], u);
    }
  }

  lemma {:induction false} MovedTypes<R>(qs: seq<seq<R>>, shares: seq<nat>, t: nat)
    requires SharesOk(qs, shares) && t <= |qs|
    ensures TypesBelow(Moved(qs, shares, t), |qs|)
    decreases |qs| - t
  {
    if t < |qs| {
      MovedTypes(qs, shares, t + 1);
    }
  }

  /** Per type, what moved followed by what is left is the old queue. */
  lemma PackConserves<R>(c: Config, qs: seq<seq<R>>, u: nat)
    requires |qs| == |c.types| && u < |qs|
    ensures var p := Pack(c, qs); OfType(p.moved, u) + p.left[u] == qs[u]
  {
    MovedOfType(qs, Shares(c, qs, 0, c.budget), 0, u);
  }

  function WireSize<R>(c: Config, items: seq<Item<R>>): nat
    requires TypesBelow(items, |c.types|)
  {
    if items == [] then 0 else FrameSize(c, items[0].ty) + WireSize(c, items[1..])
  }

  lemma {:induction false} WireSizeConcat<R>(c: Config, a: seq<Item<R>>, b: seq<Item<R>>)
    requires TypesBelow(a, |c.types|) && TypesBelow(b, |c.types|)
    ensures WireSize(c, a + b) == WireSize(c, a) + WireSize(c, b)
  {
    if a == [] {
      assert a + b == b;
    } else {
      WireSizeConcat(c, a[1..], b);
      assert (a + b)[1..] == a[1..] + b;
    }
  }

  lemma {:induction false} WireSizeItems<R>(c: Config, t: nat, recs: seq<R>)
    requires t < |c.types|
    ensures WireSize(c, Items(t, recs)) == |recs| * FrameSize(c, t)
  {
    if recs != [] {
      WireSizeItems(c, t, recs[1..]);
      assert Items(t, recs)[1..] == Items(t, recs[1..]);
      assert |recs| * FrameSize(c, t) == (|recs| - 1) * FrameSize(c, t) + FrameSize(c, t);
    }
  }

  /** Bytes on the wire for the shares of the types from `t` on. */
  function SharesSize(c: Config, shares: seq<nat>, t: nat): nat
    requires |shares| == |c.types| && t <= |shares|
    decreases |shares| - t
  {
    if t == |shares| then 0 else shares[t] * FrameSize(c, t) + SharesSize(c, shares, t + 1)
  }

  lemma {:induction false} MovedSize<R>(c: Config, qs: seq<seq<R>>, shares: seq<nat>, t: nat)
    requires |qs| == |c.types| && SharesOk(qs, shares) && t <= |qs|
    ensures var m := Moved(qs, shares, t);
            TypesBelow(m, |c.types|) && WireSize(c, m) == SharesSize(c, shares, t)
    decreases |qs| - t
  {
    MovedTypes(qs, shares, t);
    if t < |qs| {
      MovedTypes(qs, shares, t + 1);
      MovedSize(c, qs, shares, t + 1);
      WireSizeItems(c, t, qs[t][..shares[t]]);
      WireSizeConcat(c, Items(t, qs[t][..shares[t]]), Moved(qs, shares, t + 1));
    }
  }

  /** Shares computed for the types from `t` on, in the whole list. */
  ghost predicate SharesFrom<R>(c: Config, qs: seq<seq<R>>, shares: seq<nat>, t: nat, room: nat) {
    && |shares| == |qs| == |c.types| && t <= |qs|
    && shares[t..] == Shares(c, qs, t, room)
  }

  /** What the share of one type leaves for the next. */
  lemma SharesNext<R>(c: Config, qs: seq<seq<R>>, shares: seq<nat>, t: nat, room: nat)
    requires SharesFrom(c, qs, shares, t, room) && t < |qs| && !Unframable(c, qs, t)
    ensures shares[t] == Fit(|qs[t]|, room, FrameSize(c, t))
    ensures shares[t] * FrameSize(c, t) <= room
    ensures SharesFrom(c, qs, shares, t + 1, room - shares[t] * FrameSize(c, t))
    ensures shares[t] < |qs[t]| ==> room - shares[t] * FrameSize(c, t) < FrameSize(c, t)
    ensures |qs[t]| > 0 && FrameSize(c, t) <= room ==> shares[t] > 0
  {
    FitBounds(|qs[t]|, room, FrameSize(c, t));
    assert shares[t] == shares[t..][0];
    assert shares[t + 1..] == shares[t..][1..];
  }

  lemma SharesAfterStop<R>(c: Config, qs: seq<seq<R>>, shares: seq<nat>, t: nat, room: nat)
    requires SharesFrom(c, qs, shares, t, room) && t < |qs| && Unframable(c, qs, t)
    ensures forall u :: t <= u < |qs| ==> shares[u] == 0
  {
    assert forall u :: t <= u < |qs| ==> shares[u] == shares[t..][u - t];
  }

  lemma {:induction false} ZeroSharesSize(c: Config, shares: seq<nat>, t: nat)
    requires |shares| == |c.types| && t <= |shares|
    requires forall u :: t <= u < |shares| ==> shares[u] == 0
    ensures SharesSize(c, shares, t) == 0
    decreases |shares| - t
  {
    if t < |shares| {
      ZeroSharesSize(c, shares, t + 1);
    }
  }

  lemma {:induction false} SharesFit<R>(c: Config, qs: seq<seq<R>>, shares: seq<nat>, t: nat, room: nat)
    requires SharesFrom(c, qs, shares, t, room)
    ensures SharesSize(c, shares, t) <= room
    decreases |qs| - t
  {
    if t < |qs| {
      if Unframable(c, qs, t) {
        SharesAfterStop(c, qs, shares, t, room);
        ZeroSharesSize(c, shares, t);
      } else {
        SharesNext(c, qs, shares, t, room);
        SharesFit(c, qs, shares, t + 1, room - shares[t] * FrameSize(c, t));
      }
    }
  }

  lemma WholeShares<R>(c: Config, qs: seq<seq<R>>)
    requires |qs| == |c.types|
    ensures SharesFrom(c, qs, Shares(c, qs, 0, c.budget), 0, c.budget)
  {
    var shares := Shares(c, qs, 0, c.budget);
    assert shares[0..] == shares;
  }

  /** The frames moved never exceed the batch buffer. */
  lemma PackBudget<R>(c: Config, qs: seq<seq<R>>)
    requires |qs| == |c.types|
    ensures var p := Pack(c, qs);
            TypesBelow(p.moved, |c.types|) && WireSize(c, p.moved) <= c.budget
  {
    var shares := Shares(c, qs, 0, c.budget);
    WholeShares(c, qs);
    MovedSize(c, qs, shares, 0);
    SharesFit(c, qs, shares, 0, c.budget);
  }

  /** A batch fails exactly when some type with records cannot be framed. */
  lemma PackFailsIff<R>(c: Config, qs: seq<seq<R>>)
    requires |qs| == |c.types|
    ensures Pack(c, qs).failed <==> exists u :: 0 <= u < |qs| && Unframable(c, qs, u)
  {
  }

  /** `more_data` says exactly whether some type still has records. */
  lemma PackMoreIff<R>(c: Config, qs: seq<seq<R>>)
    requires |qs| == |c.types| && !Pack(c, qs).failed
    ensures var p := Pack(c, qs); p.more <==> exists u :: 0 <= u < |p.left| && p.left[u] != []
  {
    var p, shares := Pack(c, qs), Shares(c, qs, 0, c.budget);
    assert forall u :: 0 <= u < |qs| ==> (p.left[u] != [] <==> shares[u] < |qs[u]|);
  }

  lemma {:induction false} SharesMaximal<R>(c: Config, qs: seq<seq<R>>, shares: seq<nat>, t: nat, room: nat, u: nat)
    requires SharesFrom(c, qs, shares, t, room) && t <= u < |qs|
    requires forall x :: t <= x < |qs| ==> !Unframable(c, qs, x)
    ensures shares[u] < |qs[u]| ==> room - SharesSize(c, shares, t) < FrameSize(c, u)
    decreases u - t
  {
    SharesNext(c, qs, shares, t, room);
    if t < u {
      SharesMaximal(c, qs, shares, t + 1, room - shares[t] * FrameSize(c, t), u);
    }
  }

  /** The batch is maximal: no leftover record would still fit, although only the inner loop stops when
      the buffer is full. */
  lemma PackMaximal<R>(c: Config, qs: seq<seq<R>>, u: nat)
    requires |qs| == |c.types| && u < |qs| && !Pack(c, qs).failed
    ensures var p := Pack(c, qs);
            && TypesBelow(p.moved, |c.types|)
            && (p.left[u] != [] ==> c.budget < WireSize(c, p.moved) + FrameSize(c, u))
  {
    var shares := Shares(c, qs, 0, c.budget);
    WholeShares(c, qs);
    MovedSize(c, qs, shares, 0);
    SharesMaximal(c, qs, shares, 0, c.budget, u);
  }

  lemma {:induction false} FirstShare<R>(c: Config, qs: seq<seq<R>>, shares: seq<nat>, t: nat, u: nat)
    requires SharesFrom(c, qs, shares, t, c.budget) && t <= u < |qs|
    requires forall x :: t <= x <= u ==> !Unframable(c, qs, x)
    requires forall x :: t <= x < u ==> qs[x] == []
    requires qs[u] != [] && FrameSize(c, u) <= c.budget
    ensures shares[u] > 0
    decreases u - t
  {
    SharesNext(c, qs, shares, t, c.budget);
    if t < u {
      assert shares[t] == 0;
      FirstShare(c, qs, shares, t + 1, u);
    }
  }

  /** A batch in which the first non-empty type fits the buffer moves something. */
  lemma PackProgress<R>(c: Config, qs: seq<seq<R>>, u: nat)
    requires |qs| == |c.types| && u < |qs| && !Pack(c, qs).failed
    requires forall x :: 0 <= x < u ==> qs[x] == []
    requires qs[u] != [] && FrameSize(c, u) <= c.budget
    ensures Pack(c, qs).moved != []
  {
    var shares := Shares(c, qs, 0, c.budget);
    WholeShares(c, qs);
    FirstShare(c, qs, shares, 0, u);
    MovedOfType(qs, shares, 0, u);
    assert OfType<R>([], u) == [];
  }

  lemma {:induction false} TotalZero<R>(qs: seq<seq<R>>)
    ensures TotalCount(qs) == 0 <==> forall t :: 0 <= t < |qs| ==> qs[t] == []
  {
    if qs != [] {
      var front := qs[..|qs| - 1];
      TotalZero(front);
      assert forall t :: 0 <= t < |front| ==> qs[t] == front[t];
    }
  }

  lemma {:induction false} TotalFront<R>(qs: seq<seq<R>>)
    requires qs != []
    ensures TotalCount(qs) == |qs[0]| + TotalCount(qs[1..])
  {
    if |qs| > 1 {
      TotalFront(qs[..|qs| - 1]);
      assert qs[..|qs| - 1][1..] == qs[1..][..|qs| - 2];
    } else {
      assert qs[1..] == [] && qs[..0] == [];
    }
  }

  lemma {:induction false} MovedCount<R>(qs: seq<seq<R>>, shares: seq<nat>, t: nat)
    requires SharesOk(qs, shares) && t <= |qs|
    ensures TotalCount(Left(qs, shares)[t..]) + |Moved(qs, shares, t)| == TotalCount(qs[t..])
    decreases |qs| - t
  {
    if t < |qs| {
      MovedCount(qs, shares, t + 1);
      TotalFront(qs[t..]);
      TotalFront(Left(qs, shares)[t..]);
      assert qs[t..][1..] == qs[t + 1..];
      assert Left(qs, shares)[t..][1..] == Left(qs, shares)[t + 1..];
    }
  }

  /** Every record moved leaves the backend. */
  lemma PackCount<R>(c: Config, qs: seq<seq<R>>)
    requires |qs| == |c.types|
    ensures var p := Pack(c, qs); TotalCount(p.left) + |p.moved| == TotalCount(qs)
  {
    var shares := Shares(c, qs, 0, c.budget);
    MovedCount(qs, shares, 0);
    assert qs[0..] == qs && Left(qs, shares)[0..] == Left(qs, shares);
  }
}
