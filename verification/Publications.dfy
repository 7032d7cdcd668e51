/** Samples and published data over whole runs of the storage module: in any mode each relevant sample is
    published at once or buffered, and nothing else is published but what was buffered. */
module Publications {
  import opened Common
  import opened StorageSpec
  import opened StorageRuns
  import opened Subsequences

  /** A relevant sample of type `t`, whatever the module does with it. */
  predicate IsRelevant<R>(e: Event<R>, t: nat) {
    e.Message? && e.input.Sample? && e.input.relevant && e.input.ty == t
  }

  /** All of them, in order of arrival: read off the inputs alone. */
  function Relevant<R>(es: seq<Event<R>>, t: nat): seq<R> {
    if es == [] then []
    else
      var e := es[|es| - 1];
      Relevant(es[..|es| - 1], t) + if IsRelevant(e, t) then [e.input.rec] else []
  }

  /** The records of type `t` that one event makes the module publish. */
  function PublishedBy<R>(c: Config, v: View<R>, e: Event<R>, t: nat): seq<R>
    requires 0 < c.cap && |v.queues| == |c.types|
    requires e.Message? && e.input.Sample? ==> e.input.ty < |c.types|
  {
    if e.BatchRead? then [] else DataRecords(Step(c, v, e.input).1, t)
  }

  /** All that a run publishes of type `t`. */
  function Published<R>(c: Config, v: View<R>, es: seq<Event<R>>, t: nat): seq<R>
    requires 0 < c.cap && |v.queues| == |c.types|
    requires forall e :: e in es ==> e.Message? && e.input.Sample? ==> e.input.ty < |c.types|
  {
    if es == [] then []
    else
      var before := es[..|es| - 1];
      Published(c, v, before, t) + PublishedBy(c, After(c, v, before), es[|es| - 1], t)
  }

  /** What it publishes at once, in answer to a sample. */
  function PassedOn<R>(c: Config, v: View<R>, es: seq<Event<R>>, t: nat): seq<R>
    requires 0 < c.cap && |v.queues| == |c.types|
    requires forall e :: e in es ==> e.Message? && e.input.Sample? ==> e.input.ty < |c.types|
  {
    if es == [] then []
    else
      var before, e := es[..|es| - 1], es[|es| - 1];
      PassedOn(c, v, before, t)
      + if e.Message? && e.input.Sample? then PublishedBy(c, After(c, v, before), e, t) else []
  }

  lemma {:induction false} NoData<R>(msgs: seq<Output<R>>, t: nat)
    requires forall m :: m in msgs ==> m.Publish?
    ensures DataRecords(msgs, t) == []
  {
    if msgs != [] {
      assert msgs[|msgs| - 1] in msgs;
      NoData(msgs[..|msgs| - 1], t);
    }
  }

  lemma OneData<R>(ty: nat, rec: R, t: nat)
    ensures DataRecords([Data(ty, rec)], t) == if ty == t then [rec] else []
    ensures DataRecords<R>([], t) == []
  {
    assert [Data(ty, rec)][..0] == [];
  }

  /** What becomes of one sample: in passthrough mode it is published at once and not kept, in buffer mode it is
      kept and nothing is published; if it is not relevant, neither. */
  lemma SampleGoes<R>(c: Config, v: View<R>, ty: nat, rec: R, relevant: bool, t: nat)
    requires 0 < c.cap && t < |v.queues| == |c.types| && ty < |c.types|
    ensures var e := Message(Sample(ty, rec, relevant));
            var mine := if relevant && ty == t then [rec] else [];
            && PublishedBy(c, v, e, t) == (if v.leaf == Passthrough then mine else [])
            && Entries(c, v, e, t).arrived == (if v.leaf == Passthrough then [] else mine)
            && Entries(c, v, e, t).flushed == []
  {
    OneData(ty, rec, t);
    hide DataRecords, Append;
  }

  /** Everything else publishes only what it flushes. */
  lemma OtherGoes<R>(c: Config, v: View<R>, e: Event<R>, t: nat)
    requires 0 < c.cap && t < |v.queues| == |c.types| && EventOk(c, e)
    requires e.Message? ==> !e.input.Sample?
    ensures PublishedBy(c, v, e, t) == Entries(c, v, e, t).flushed && Entries(c, v, e, t).arrived == []
  {
    hide DataRecords, AllData, Pack, OfType, TotalCount;
    if e.Message? && e.input != Channel(Flush) {
      var outs := Step(c, v, e.input).1;
      SaysFew(c, v, e.input);
      NoData(outs, t);
    }
  }

  lemma SaysFew<R>(c: Config, v: View<R>, input: Input<R>)
    requires 0 < c.cap && |v.queues| == |c.types| && !input.Sample? && input != Channel(Flush)
    ensures forall m :: m in Step(c, v, input).1 ==> m.Publish?
  {
    hide Pack, TotalCount, AllData;
  }

  /** `whole` is made of `a` and `b`, each in its order. */
  ghost predicate Split<R>(whole: seq<R>, a: seq<R>, b: seq<R>) {
    multiset(whole) == multiset(a) + multiset(b) && Subsequence(a, whole) && Subsequence(b, whole)
  }

  lemma SplitNothing<R>()
    ensures Split<R>([], [], [])
  {
    WholeIsSubsequence<R>([]);
  }

  /** The next stretch goes to one of them. */
  lemma SplitGrows<R>(whole: seq<R>, a: seq<R>, b: seq<R>, more: seq<R>, toA: seq<R>, toB: seq<R>)
    requires Split(whole, a, b) && ((toA == more && toB == []) || (toA == [] && toB == more))
    ensures Split(whole + more, a + toA, b + toB)
  {
    hide Subsequence;
    SubsequenceGrows(a, whole, more);
    SubsequenceGrows(b, whole, more);
    assert a + [] == a && b + [] == b;
  }

  lemma EventGoes<R>(c: Config, v: View<R>, e: Event<R>, t: nat)
    requires 0 < c.cap && t < |v.queues| == |c.types| && EventOk(c, e)
    ensures var l, out := Entries(c, v, e, t), PublishedBy(c, v, e, t);
            var mine := if IsRelevant(e, t) then [e.input.rec] else [];
            var passed := if e.Message? && e.input.Sample? then out else [];
            && ((passed == mine && l.arrived == []) || (passed == [] && l.arrived == mine))
            && ((passed == out && l.flushed == []) || (passed == [] && l.flushed == out))
  {
    hide PublishedBy, Entries;
    if e.Message? && e.input.Sample? {
      SampleGoes(c, v, e.input.ty, e.input.rec, e.input.relevant, t);
    } else {
      OtherGoes(c, v, e, t);
    }
  }

  /** Every relevant sample of a run has been published at once or put in the backend, and both in order of
      arrival. What a run publishes of a type is what it published at once and what it flushed, each in its
      order. */
  lemma {:induction false} SamplesAndPublications<R>(c: Config, v: View<R>, es: seq<Event<R>>, t: nat)
    requires RunOk(c, v, es) && t < |v.queues|
    ensures var l, passed := LedgerOf(c, v, es, t), PassedOn(c, v, es, t);
            Split(Relevant(es, t), passed, l.arrived) && Split(Published(c, v, es, t), passed, l.flushed)
  {
    hide Split, Next, PublishedBy, Entries;
    if es == [] {
      SplitNothing<R>();
    } else {
      var before, e := es[..|es| - 1], es[|es| - 1];
      assert e in es;
      SamplesAndPublications(c, v, before, t);
      var mid := After(c, v, before);
      var l, entries, passed := LedgerOf(c, v, before, t), Entries(c, mid, e, t), PassedOn(c, v, before, t);
      var out := PublishedBy(c, mid, e, t);
      var now := if e.Message? && e.input.Sample? then out else [];
      var mine := if IsRelevant(e, t) then [e.input.rec] else [];
      EventGoes(c, mid, e, t);
      SplitGrows(Relevant(before, t), passed, l.arrived, mine, now, entries.arrived);
      SplitGrows(Published(c, v, before, t), passed, l.flushed, out, now, entries.flushed);
    }
  }

  /** So over every run, in whatever modes, each record held at first and each relevant sample is in exactly one
      place: published at once, still held, or in one of the ledger's ways out. */
  lemma EverySampleAccounted<R>(c: Config, v: View<R>, es: seq<Event<R>>, t: nat)
    requires RunOk(c, v, es) && t < |v.queues|
    ensures var l := LedgerOf(c, v, es, t);
            multiset(Held(v, t) + Relevant(es, t))
            == multiset(Held(After(c, v, es), t)) + StorageRuns.Left(l) + multiset(PassedOn(c, v, es, t))
  {
    hide StorageRuns.Left, LedgerOf, PassedOn, Relevant, After, Held;
    RecordsAccounted(c, v, es, t);
    SamplesAndPublications(c, v, es, t);
  }
}
