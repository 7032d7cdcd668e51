/** Whole runs of the storage module: who may touch the pipe, when the session timer is safe, and where
    every buffered record ends up. */
module StorageRuns {
  import opened Common
  import opened StorageSpec
  import opened Packing
  import opened Subsequences

  /** The module takes a message from its subscriber, or the consumer's thread reads one item. */
  datatype Event<R> = Message(input: Input<R>) | BatchRead

  ghost predicate EventOk<R>(c: Config, e: Event<R>) {
    e.Message? ==> InputOk(c, e.input)
  }

  ghost predicate RunOk<R>(c: Config, v: View<R>, es: seq<Event<R>>) {
    && 0 < c.cap && |v.queues| == |c.types|
    && forall e :: e in es ==> EventOk(c, e)
  }

  function Next<R>(c: Config, v: View<R>, e: Event<R>): (v': View<R>)
    requires 0 < c.cap && |v.queues| == |c.types|
    requires e.Message? && e.input.Sample? ==> e.input.ty < |c.types|
    ensures |v'.queues| == |c.types|
  {
    if e.BatchRead? then Read(v).0 else Step(c, v, e.input).0
  }

  function After<R>(c: Config, v: View<R>, es: seq<Event<R>>): (v': View<R>)
    requires 0 < c.cap && |v.queues| == |c.types|
    requires forall e :: e in es ==> e.Message? && e.input.Sample? ==> e.input.ty < |c.types|
    ensures |v'.queues| == |c.types|
  {
    if es == [] then v else Next(c, After(c, v, es[..|es| - 1]), es[|es| - 1])
  }

  // ---- Sessions ----

  /** Outside a session there is nothing of a session. */
  ghost predicate Isolated<R>(v: View<R>) {
    v.leaf != PipeActive ==> v.pipe == [] && v.session == NO_SESSION && !v.armed
  }

  lemma StaysIsolated<R>(c: Config, v: View<R>, e: Event<R>)
    requires 0 < c.cap && |v.queues| == |c.types| && EventOk(c, e) && Isolated(v)
    ensures Isolated(Next(c, v, e))
  {
    hide Pack, AllData;
  }

  lemma {:induction false} AlwaysIsolated<R>(c: Config, v: View<R>, es: seq<Event<R>>)
    requires RunOk(c, v, es) && Isolated(v)
    ensures Isolated(After(c, v, es))
  {
    if es != [] {
      AlwaysIsolated(c, v, es[..|es| - 1]);
      StaysIsolated(c, After(c, v, es[..|es| - 1]), es[|es| - 1]);
    }
  }

  /** Nothing that belongs to the session `id`: neither its requests, nor its end. */
  predicate Foreign<R>(e: Event<R>, id: UInt32) {
    e.Message? ==>
      && !e.input.SessionTimeout?
      && e.input != Channel(BatchRequest(id))
      && e.input != Channel(BatchClose(id))
  }

  function Reads<R>(es: seq<Event<R>>): (n: nat)
    ensures n <= |es|
  {
    if es == [] then 0 else Reads(es[..|es| - 1]) + if es[|es| - 1].BatchRead? then 1 else 0
  }

  predicate TouchesNoBackend<R>(e: Event<R>) {
    e.BatchRead? || (e.input.Channel? && !e.input.msg.Flush?)
  }

  lemma ForeignStep<R>(c: Config, v: View<R>, e: Event<R>)
    requires 0 < c.cap && |v.queues| == |c.types| && EventOk(c, e)
    requires v.leaf == PipeActive && v.session.id != 0 && Foreign(e, v.session.id)
    ensures var v' := Next(c, v, e);
            && v' == v.(pipe := v'.pipe, queues := v'.queues)
            && v'.pipe == (if e.BatchRead? && v.pipe != [] then v.pipe[1..] else v.pipe)
            && (TouchesNoBackend(e) ==> v'.queues == v.queues)
  {
    hide Start, AllData;
  }

  /** While a session is active, nobody else's requests, closes, clears or mode changes touch it: the
      pipe only shrinks by what is read, from the front, and nothing leaves the backend unless it is
      flushed or pushed out by newer samples. */
  lemma {:induction false} SessionHolds<R>(c: Config, v: View<R>, es: seq<Event<R>>)
    requires RunOk(c, v, es) && v.leaf == PipeActive && v.session.id != 0
    requires forall e :: e in es ==> Foreign(e, v.session.id)
    ensures var v' := After(c, v, es);
            && v' == v.(pipe := v'.pipe, queues := v'.queues)
            && v'.pipe == v.pipe[Min(Reads(es), |v.pipe|)..]
            && ((forall e :: e in es ==> TouchesNoBackend(e)) ==> v'.queues == v.queues)
  {
    hide Next, Foreign, TouchesNoBackend;
    if es != [] {
      var before, e := es[..|es| - 1], es[|es| - 1];
      SessionHolds(c, v, before);
      assert e in es && forall x :: x in before ==> x in es;
      ForeignStep(c, After(c, v, before), e);
    }
  }

  /** A session ends exactly by its timeout or by a close with its id, and ends in idle: passthrough is
      entered only from idle, where the pipe is empty. */
  lemma SessionEndsIff<R>(c: Config, v: View<R>, e: Event<R>)
    requires 0 < c.cap && |v.queues| == |c.types| && EventOk(c, e) && Isolated(v)
    ensures var v' := Next(c, v, e);
            && (v.leaf == PipeActive ==>
                  (v'.leaf != PipeActive <==>
                   e.Message? && (e.input.SessionTimeout? || e.input == Channel(BatchClose(v.session.id)))))
            && (v.leaf == PipeActive && v'.leaf != PipeActive ==> v'.leaf == BufferIdle && v'.queues == v.queues)
            && (v'.leaf == Passthrough && v.leaf != Passthrough ==>
                  v.leaf == BufferIdle && v'.queues == v.queues && v.pipe == [])
  {
    hide Pack, AllData;
  }

  /** Which message takes the module from one mode to another: each exactly one, and only from idle except back
      to it. */
  lemma ModeMovesIff<R>(c: Config, v: View<R>, e: Event<R>)
    requires 0 < c.cap && |v.queues| == |c.types| && EventOk(c, e)
    ensures var w := Next(c, v, e);
            && (v.leaf == BufferIdle ==>
                  && (w.leaf == Passthrough <==> e == Message(Channel(PassthroughRequest)))
                  && (w.leaf == PipeActive <==> e.Message? && e.input.Channel? && e.input.msg.BatchRequest?))
            && (v.leaf == Passthrough ==>
                  w.leaf == if e == Message(Channel(BufferRequest)) then BufferIdle else Passthrough)
            && (v.leaf == PipeActive ==> w.leaf != Passthrough)
  {
    hide Pack, AllData, TotalCount;
  }

  /** The session timeout is armed by the request that opens a session with an offer, again by each request that
      may touch the session, and disarmed by its end, and by nothing else. */
  lemma ArmedIff<R>(c: Config, v: View<R>, e: Event<R>)
    requires 0 < c.cap && |v.queues| == |c.types| && EventOk(c, e) && Isolated(v)
    ensures var w := Next(c, v, e);
            w.armed <==>
              && w.leaf == PipeActive
              && (|| v.armed
                  || (&& e.Message? && e.input.Channel? && e.input.msg.BatchRequest?
                      && if v.leaf == PipeActive then v.session.id == 0 || v.session.id == e.input.msg.id
                         else Start(c, v, e.input.msg.id).err == 0))
  {
    hide Pack, AllData, TotalCount;
  }

  /** A clear empties the backend exactly when no session is active, unless it was empty anyway: the clear
      that precedes a reboot into new firmware is refused during a batch session. */
  lemma ClearEmptiesIff<R>(c: Config, v: View<R>)
    requires 0 < c.cap && |v.queues| == |c.types|
    ensures var v' := Next(c, v, Message(Channel(Clear)));
            && (TotalCount(v'.queues) == 0 <==> v.leaf != PipeActive || TotalCount(v.queues) == 0)
            && v'.pipe == v.pipe && v'.leaf == v.leaf && v'.session == v.session
  {
    TotalZero(Emptied(v.queues));
    hide TotalCount;
  }

  /** The session timer must never fire without a session id: session_timeout_work_fn asserts it. */
  ghost predicate TimerSafe<R>(v: View<R>) {
    v.armed ==> v.session.id != 0
  }

  /** A request that arms the timer although no session starts: one with id zero, or one that finds the
      backend empty, in a session that was itself opened with id zero. */
  ghost predicate ArmsWithoutId<R>(v: View<R>, e: Event<R>) {
    && v.leaf == PipeActive && v.session.id == 0
    && e.Message? && e.input.Channel? && e.input.msg.BatchRequest?
    && (e.input.msg.id == 0 || TotalCount(v.queues) == 0)
  }

  lemma TimerSafeStep<R>(c: Config, v: View<R>, e: Event<R>)
    requires 0 < c.cap && |v.queues| == |c.types| && EventOk(c, e) && Isolated(v) && TimerSafe(v)
    ensures TimerSafe(Next(c, v, e)) <==> !ArmsWithoutId(v, e)
  {
    hide Pack, AllData;
  }

  /** The timer was safe at every point of the run. */
  ghost predicate AlwaysTimerSafe<R>(c: Config, v: View<R>, es: seq<Event<R>>)
    requires RunOk(c, v, es)
  {
    && TimerSafe(After(c, v, es))
    && (es != [] ==> AlwaysTimerSafe(c, v, es[..|es| - 1]))
  }

  ghost predicate NeverArmsWithoutId<R>(c: Config, v: View<R>, es: seq<Event<R>>)
    requires RunOk(c, v, es)
  {
    es != [] ==>
      var before := es[..|es| - 1];
      NeverArmsWithoutId(c, v, before) && !ArmsWithoutId(After(c, v, before), es[|es| - 1])
  }

  /** Over a whole run the timer stays safe exactly when no event arms it without an id. */
  lemma {:induction false} TimerSafeIff<R>(c: Config, v: View<R>, es: seq<Event<R>>)
    requires RunOk(c, v, es) && Isolated(v) && TimerSafe(v)
    ensures AlwaysTimerSafe(c, v, es) <==> NeverArmsWithoutId(c, v, es)
  {
    hide Next, ArmsWithoutId, TimerSafe, Isolated;
    if es != [] {
      var before := es[..|es| - 1];
      TimerSafeIff(c, v, before);
      AlwaysIsolated(c, v, before);
      assert es[|es| - 1] in es;
      if TimerSafe(After(c, v, before)) {
        TimerSafeStep(c, After(c, v, before), es[|es| - 1]);
      }
    }
  }

  lemma NonzeroIdStep<R>(c: Config, v: View<R>, e: Event<R>)
    requires 0 < c.cap && |v.queues| == |c.types| && EventOk(c, e) && Isolated(v) && TimerSafe(v)
    requires v.leaf == PipeActive ==> v.session.id != 0
    requires e.Message? ==> e.input != Channel(BatchRequest(0))
    ensures var v' := Next(c, v, e); TimerSafe(v') && (v'.leaf == PipeActive ==> v'.session.id != 0)
  {
    hide Pack, AllData;
  }

  /** It is enough that no consumer ever uses the id zero. */
  lemma {:induction false} NonzeroIdsKeepTimerSafe<R>(c: Config, v: View<R>, es: seq<Event<R>>)
    requires RunOk(c, v, es) && Isolated(v)
    requires v.leaf == PipeActive ==> v.session.id != 0
    requires forall e :: e in es ==> e.Message? ==> e.input != Channel(BatchRequest(0))
    ensures var v' := After(c, v, es); TimerSafe(v') && (v'.leaf == PipeActive ==> v'.session.id != 0)
  {
    hide Next;
    if es != [] {
      NonzeroIdsKeepTimerSafe(c, v, es[..|es| - 1]);
      AlwaysIsolated(c, v, es[..|es| - 1]);
      assert es[|es| - 1] in es;
      NonzeroIdStep(c, After(c, v, es[..|es| - 1]), es[|es| - 1]);
    }
  }

  /** So from start-up on. */
  lemma FromStart<R>(c: Config, initial: Leaf, qs: seq<seq<R>>, es: seq<Event<R>>)
    requires initial != PipeActive && RunOk(c, StartUp(initial, qs), es)
    ensures Isolated(After(c, StartUp(initial, qs), es))
    ensures AlwaysTimerSafe(c, StartUp(initial, qs), es) <==> NeverArmsWithoutId(c, StartUp(initial, qs), es)
    ensures (forall e :: e in es ==> e.Message? ==> e.input != Channel(BatchRequest(0))) ==>
              TimerSafe(After(c, StartUp(initial, qs), es))
  {
    var v := StartUp(initial, qs);
    AlwaysIsolated(c, v, es);
    TimerSafeIff(c, v, es);
    if forall e :: e in es ==> e.Message? ==> e.input != Channel(BatchRequest(0)) {
      NonzeroIdsKeepTimerSafe(c, v, es);
    }
    hide After, AlwaysTimerSafe, NeverArmsWithoutId;
  }

  /** Otherwise it can fail: two requests with id zero from idle. */
  lemma ZeroIdArmsTimer<R>(c: Config, v: View<R>)
    requires 0 < c.cap && |v.queues| == |c.types| && Isolated(v) && v.leaf == BufferIdle
    ensures var e: Event<R> := Message(Channel(BatchRequest(0)));
            !TimerSafe(After(c, v, [e, e]))
  {
    var e: Event<R> := Message(Channel(BatchRequest(0)));
    assert [e, e][..1] == [e] && [e][..0] == [];
    assert After(c, v, [e]) == Next(c, v, e);
    assert After(c, v, [e, e]) == Next(c, Next(c, v, e), e);
  }

  // ---- Where records go ----

  /** What became of the records of one type: those buffered, and the ways out. */
  datatype Ledger<R> = Ledger(
    arrived: seq<R>,
    read: seq<R>,
    flushed: seq<R>,
    evicted: seq<R>,
    drained: seq<R>,
    cleared: seq<R>)

  function NoEntries<R>(): Ledger<R> {
    Ledger([], [], [], [], [], [])
  }

  /** The records of type `t` among published data. */
  function DataRecords<R>(outs: seq<Output<R>>, t: nat): seq<R> {
    if outs == [] then []
    else
      var last := outs[|outs| - 1];
      DataRecords(outs[..|outs| - 1], t) + (if last.Data? && last.ty == t then [last.rec] else [])
  }

  /** The events that throw away what the consumer has not read. */
  predicate Discards<R>(v: View<R>, e: Event<R>) {
    e.Message? &&
    match e.input
    case SessionTimeout => v.leaf == PipeActive
    case Channel(BatchClose(id)) => v.leaf == PipeActive && v.session.id == id
    case Channel(BatchRequest(id)) =>
      && v.leaf != Passthrough && id != 0 && TotalCount(v.queues) != 0
      && (v.leaf == PipeActive ==> v.session.id == 0 || v.session.id == id)
    case _ => false
  }

  /** The entries that one event makes in the ledger of type `t`. */
  function Entries<R>(c: Config, v: View<R>, e: Event<R>, t: nat): Ledger<R>
    requires 0 < c.cap && t < |v.queues| == |c.types|
    requires e.Message? && e.input.Sample? ==> e.input.ty < |c.types|
  {
    var q, none := v.queues[t], NoEntries<R>();
    if Discards(v, e) then none.(drained := OfType(v.pipe, t))
    else
      match e
      case BatchRead =>
        var got := Read(v).1;
        if got.Some? && got.value.ty == t then none.(read := [got.value.rec]) else none
      case Message(Sample(ty, rec, relevant)) =>
        if !relevant || v.leaf == Passthrough || ty != t then none
        else none.(arrived := [rec], evicted := if |q| < c.cap then [] else [q[0]])
      case Message(Channel(Flush)) => none.(flushed := DataRecords(Step(c, v, e.input).1, t))
      case Message(Channel(Clear)) => if v.leaf == PipeActive then none else none.(cleared := q)
      case _ => none
  }

  function Joined<R>(a: Ledger<R>, b: Ledger<R>): Ledger<R> {
    Ledger(a.arrived + b.arrived, a.read + b.read, a.flushed + b.flushed, a.evicted + b.evicted,
           a.drained + b.drained, a.cleared + b.cleared)
  }

  function LedgerOf<R>(c: Config, v: View<R>, es: seq<Event<R>>, t: nat): Ledger<R>
    requires 0 < c.cap && t < |v.queues| == |c.types|
    requires forall e :: e in es ==> e.Message? && e.input.Sample? ==> e.input.ty < |c.types|
  {
    if es == [] then NoEntries()
    else
      var before := es[..|es| - 1];
      Joined(LedgerOf(c, v, before, t), Entries(c, After(c, v, before), es[|es| - 1], t))
  }

  /** The records of type `t` that the module holds, oldest first. */
  function Held<R>(v: View<R>, t: nat): seq<R>
    requires t < |v.queues|
  {
    OfType(v.pipe, t) + v.queues[t]
  }

  ghost function Left<R>(l: Ledger<R>): multiset<R> {
    multiset(l.read) + multiset(l.flushed) + multiset(l.evicted) + multiset(l.drained) + multiset(l.cleared)
  }

  // ---- One event ----

  lemma {:induction false} FlushedAll<R>(qs: seq<seq<R>>, t: nat)
    ensures DataRecords(AllData(qs), t) == if t < |qs| then qs[t] else []
  {
    hide DataRecords;
    if qs == [] {
      assert DataRecords<R>([], t) == [] by { NoDataRecords<R>(t); }
    } else {
      var front, n := qs[..|qs| - 1], |qs| - 1;
      FlushedAll(front, t);
      DataRecordsConcat(AllData(front), DataOf(n, qs[n]), t);
      DataRecordsOf(n, qs[n], t);
    }
  }

  lemma NoDataRecords<R>(t: nat)
    ensures DataRecords<R>([], t) == []
  {
  }

  lemma {:induction false} DataRecordsConcat<R>(a: seq<Output<R>>, b: seq<Output<R>>, t: nat)
    ensures DataRecords(a + b, t) == DataRecords(a, t) + DataRecords(b, t)
  {
    if b == [] {
      assert a + b == a;
    } else {
      DataRecordsConcat(a, b[..|b| - 1], t);
      assert (a + b)[..|a + b| - 1] == a + b[..|b| - 1];
    }
  }

  lemma {:induction false} DataRecordsOf<R>(ty: nat, recs: seq<R>, t: nat)
    ensures DataRecords(DataOf(ty, recs), t) == if ty == t then recs else []
  {
    if recs != [] {
      var front := recs[..|recs| - 1];
      DataRecordsOf(ty, front, t);
      assert DataOf(ty, recs)[..|recs| - 1] == DataOf(ty, front);
    }
  }

  lemma {:induction false} OfTypeHead<R>(pipe: seq<Item<R>>, t: nat)
    requires pipe != []
    ensures OfType(pipe, t) == (if pipe[0].ty == t then [pipe[0].rec] else []) + OfType(pipe[1..], t)
  {
    OfTypeConcat([pipe[0]], pipe[1..], t);
    assert [pipe[0]] + pipe[1..] == pipe;
    assert [pipe[0]][..0] == [];
  }

  /** What one event does to the records of one type in the pipe, `p`, and in the backend, `q`. */
  ghost predicate Shift<R>(p: seq<R>, q: seq<R>, l: Ledger<R>, p': seq<R>, q': seq<R>) {
    var none := NoEntries<R>();
    || (l == none && p' == p && q' == q)
    || (l == none.(drained := p) && p' + q' == q)
    || (l == none.(read := l.read) && l.read + p' == p && q' == q)
    || (l == none.(flushed := q) && p' == p && q' == [])
    || (l == none.(cleared := q) && p' == p && q' == [])
    || (l == none.(arrived := l.arrived) && |l.arrived| == 1 && p' == p && q' == q + l.arrived)
    || (l == none.(arrived := l.arrived, evicted := l.evicted) && |l.arrived| == 1 && |l.evicted| == 1
        && p' == p && l.evicted + q' == q + l.arrived)
  }

  ghost predicate Shifts<R>(v: View<R>, l: Ledger<R>, v': View<R>, t: nat)
    requires t < |v.queues| == |v'.queues|
  {
    Shift(OfType(v.pipe, t), v.queues[t], l, OfType(v'.pipe, t), v'.queues[t])
  }

  lemma RequestShifts<R>(c: Config, v: View<R>, id: UInt32, t: nat)
    requires 0 < c.cap && t < |v.queues| == |c.types|
    ensures var e := Message(Channel(BatchRequest(id)));
            Shifts(v, Entries(c, v, e, t), Next(c, v, e), t)
  {
    hide Pack, Append, AllData, OfType, TotalCount;
    PackConserves(c, v.queues, t);
  }

  lemma SampleShifts<R>(c: Config, v: View<R>, ty: nat, rec: R, relevant: bool, t: nat)
    requires 0 < c.cap && t < |v.queues| == |c.types| && ty < |c.types|
    ensures var e := Message(Sample(ty, rec, relevant));
            Shifts(v, Entries(c, v, e, t), Next(c, v, e), t)
  {
    hide OfType;
    var q := v.queues[t];
    if |q| >= c.cap {
      assert [q[0]] + (q[1..] + [rec]) == q + [rec];
    }
  }

  lemma OtherMessageShifts<R>(c: Config, v: View<R>, msg: StorageMsg, t: nat)
    requires 0 < c.cap && t < |v.queues| == |c.types|
    requires !msg.BatchRequest?
    ensures var e := Message(Channel(msg));
            Shifts(v, Entries(c, v, e, t), Next(c, v, e), t)
  {
    FlushedAll(v.queues, t);
    assert OfType<R>([], t) == [];
    hide AllData, DataRecords, OfType;
  }

  lemma EventShifts<R>(c: Config, v: View<R>, e: Event<R>, t: nat)
    requires 0 < c.cap && t < |v.queues| == |c.types| && EventOk(c, e)
    ensures Shifts(v, Entries(c, v, e, t), Next(c, v, e), t)
  {
    match e
    case BatchRead =>
      if v.pipe != [] {
        OfTypeHead(v.pipe, t);
      }
    case Message(SessionTimeout) =>
    case Message(Sample(ty, rec, relevant)) =>
      SampleShifts(c, v, ty, rec, relevant, t);
    case Message(Channel(msg)) =>
      if msg.BatchRequest? {
        RequestShifts(c, v, msg.id, t);
      } else {
        OtherMessageShifts(c, v, msg, t);
      }
  }

  /** How often `x` occurs. */
  ghost function Times<R>(s: seq<R>, x: R): nat {
    multiset(s)[x]
  }

  lemma TimesConcat<R>(a: seq<R>, b: seq<R>, x: R)
    ensures Times(a + b, x) == Times(a, x) + Times(b, x)
    ensures Times([], x) == 0
  {
  }

  ghost function TimesLeft<R>(l: Ledger<R>, x: R): nat {
    Times(l.read, x) + Times(l.flushed, x) + Times(l.evicted, x) + Times(l.drained, x) + Times(l.cleared, x)
  }

  lemma ShiftBalances<R>(p: seq<R>, q: seq<R>, l: Ledger<R>, p': seq<R>, q': seq<R>, x: R)
    requires Shift(p, q, l, p', q')
    ensures Times(p, x) + Times(q, x) + Times(l.arrived, x) == Times(p', x) + Times(q', x) + TimesLeft(l, x)
  {
    TimesConcat(p', q', x);
    TimesConcat(l.read, p', x);
    TimesConcat(q, l.arrived, x);
    TimesConcat(l.evicted, q', x);
    hide Times;
  }

  /** Taking out and adding at the end keeps a line of records in order. */
  lemma ShiftKeepsOrder<R>(read: seq<R>, flushed: seq<R>, p: seq<R>, q: seq<R>, l: Ledger<R>, p': seq<R>, q': seq<R>,
                           whole: seq<R>)
    requires Shift(p, q, l, p', q')
    ensures Subsequence(read + p + q, whole) ==> Subsequence(read + l.read + p' + q', whole + l.arrived)
    ensures Subsequence(flushed + q, whole) ==> Subsequence(flushed + l.flushed + q', whole + l.arrived)
  {
    if Subsequence(read + p + q, whole) {
      ShiftKeepsReads(read, p, q, l, p', q', whole);
    }
    if Subsequence(flushed + q, whole) {
      ShiftKeepsFlushes(flushed, p, q, l, p', q', whole);
    }
  }

  lemma ShiftKeepsReads<R>(read: seq<R>, p: seq<R>, q: seq<R>, l: Ledger<R>, p': seq<R>, q': seq<R>, whole: seq<R>)
    requires Shift(p, q, l, p', q') && Subsequence(read + p + q, whole)
    ensures Subsequence(read + l.read + p' + q', whole + l.arrived)
  {
    hide Subsequence;
    var line := read + p + q;
    if l.arrived == [] {
      assert whole + l.arrived == whole;
      if l == NoEntries<R>().(drained := p) && p' + q' == q {
        SubsequenceWithout(read, p, q, whole);
        assert read + l.read + p' + q' == read + q;
      } else if p' == p && q' == [] {
        assert read + p + q == (read + p) + q + [];
        SubsequenceWithout(read + p, q, [], whole);
        assert read + l.read + p' + q' == (read + p) + [];
      } else {
        assert read + l.read + p' + q' == line;
      }
    } else {
      SubsequenceGrows(line, whole, l.arrived);
      if l.evicted == [] {
        assert read + l.read + p' + q' == line + l.arrived;
      } else {
        assert line + l.arrived == (read + p) + (l.evicted + q') == (read + p) + l.evicted + q';
        SubsequenceWithout(read + p, l.evicted, q', whole + l.arrived);
        assert read + l.read + p' + q' == (read + p) + q';
      }
    }
  }

  lemma ShiftKeepsFlushes<R>(flushed: seq<R>, p: seq<R>, q: seq<R>, l: Ledger<R>, p': seq<R>, q': seq<R>,
                             whole: seq<R>)
    requires Shift(p, q, l, p', q') && Subsequence(flushed + q, whole)
    ensures Subsequence(flushed + l.flushed + q', whole + l.arrived)
  {
    hide Subsequence;
    if l.arrived == [] {
      assert whole + l.arrived == whole;
      if l == NoEntries<R>().(drained := p) && p' + q' == q {
        assert flushed + q == flushed + p' + q';
        SubsequenceWithout(flushed, p', q', whole);
        assert flushed + l.flushed + q' == flushed + q';
      } else if l == NoEntries<R>().(cleared := q) && p' == p && q' == [] {
        assert flushed + q == flushed + q + [];
        SubsequenceWithout(flushed, q, [], whole);
        assert flushed + l.flushed + q' == flushed + [];
      } else {
        assert flushed + l.flushed + q' == flushed + q;
      }
    } else {
      SubsequenceGrows(flushed + q, whole, l.arrived);
      if l.evicted == [] {
        assert flushed + l.flushed + q' == flushed + q + l.arrived;
      } else {
        assert flushed + q + l.arrived == flushed + (l.evicted + q') == flushed + l.evicted + q';
        SubsequenceWithout(flushed, l.evicted, q', whole + l.arrived);
        assert flushed + l.flushed + q' == flushed + q';
      }
    }
  }

  // ---- Whole runs ----

  lemma {:induction false} TimesAccounted<R>(c: Config, v: View<R>, es: seq<Event<R>>, t: nat, x: R)
    requires RunOk(c, v, es) && t < |v.queues|
    ensures var l, v' := LedgerOf(c, v, es, t), After(c, v, es);
            Times(OfType(v.pipe, t), x) + Times(v.queues[t], x) + Times(l.arrived, x)
            == Times(OfType(v'.pipe, t), x) + Times(v'.queues[t], x) + TimesLeft(l, x)
  {
    hide Times, Entries, Next, OfType, Shift;
    if es == [] {
      TimesConcat<R>([], [], x);
    } else {
      var before, e := es[..|es| - 1], es[|es| - 1];
      TimesAccounted(c, v, before, t, x);
      assert e in es;
      var mid := After(c, v, before);
      var l1, l2, v' := LedgerOf(c, v, before, t), Entries(c, mid, e, t), Next(c, mid, e);
      EventShifts(c, mid, e, t);
      ShiftBalances(OfType(mid.pipe, t), mid.queues[t], l2, OfType(v'.pipe, t), v'.queues[t], x);
      JoinedTimes(l1, l2, x);
    }
  }

  lemma JoinedTimes<R>(a: Ledger<R>, b: Ledger<R>, x: R)
    ensures Times(Joined(a, b).arrived, x) == Times(a.arrived, x) + Times(b.arrived, x)
    ensures TimesLeft(Joined(a, b), x) == TimesLeft(a, x) + TimesLeft(b, x)
  {
    TimesConcat(a.arrived, b.arrived, x);
    TimesConcat(a.read, b.read, x);
    TimesConcat(a.flushed, b.flushed, x);
    TimesConcat(a.evicted, b.evicted, x);
    TimesConcat(a.drained, b.drained, x);
    TimesConcat(a.cleared, b.cleared, x);
    hide Times;
  }

  /** Accounting for type `t`: every record held at first or buffered since is in exactly one place: still
      held, or in one of the ledger's ways out. Nothing is lost, duplicated or invented. */
  lemma RecordsAccounted<R>(c: Config, v: View<R>, es: seq<Event<R>>, t: nat)
    requires RunOk(c, v, es) && t < |v.queues|
    ensures var l := LedgerOf(c, v, es, t);
            multiset(Held(v, t) + l.arrived) == multiset(Held(After(c, v, es), t)) + Left(l)
  {
    var l, v' := LedgerOf(c, v, es, t), After(c, v, es);
    forall x: R
      ensures Times(OfType(v.pipe, t), x) + Times(v.queues[t], x) + Times(l.arrived, x)
           == Times(OfType(v'.pipe, t), x) + Times(v'.queues[t], x) + TimesLeft(l, x)
    {
      TimesAccounted(c, v, es, t, x);
    }
    TimesDecide(OfType(v.pipe, t), v.queues[t], l, OfType(v'.pipe, t), v'.queues[t]);
  }

  lemma TimesDecide<R>(p: seq<R>, q: seq<R>, l: Ledger<R>, p': seq<R>, q': seq<R>)
    requires forall x: R ::
               Times(p, x) + Times(q, x) + Times(l.arrived, x) == Times(p', x) + Times(q', x) + TimesLeft(l, x)
    ensures multiset(p + q + l.arrived) == multiset(p' + q') + Left(l)
  {
    var a, b := multiset(p + q + l.arrived), multiset(p' + q') + Left(l);
    forall x: R
      ensures a[x] == b[x]
    {
      TimesConcat(p + q, l.arrived, x);
      TimesConcat(p, q, x);
      TimesConcat(p', q', x);
      assert Left(l)[x] == TimesLeft(l, x);
    }
  }

  lemma InOrderAtFirst<R>(p: seq<R>, q: seq<R>)
    ensures Subsequence([] + p + q, p + q + [])
    ensures Subsequence([] + q, p + q + [])
  {
    hide Subsequence;
    WholeIsSubsequence(p + q);
    assert [] + p == p;
    assert p + q + [] == p + q;
    SubsequenceWithout([], p, q, p + q);
  }

  /** Order for type `t`: what the consumer has read, then what waits in the pipe, then what the backend
      holds, is in arrival order; and so are the flushes, then what the backend holds. */
  lemma {:induction false} RecordsInOrder<R>(c: Config, v: View<R>, es: seq<Event<R>>, t: nat)
    requires RunOk(c, v, es) && t < |v.queues|
    ensures var l, v' := LedgerOf(c, v, es, t), After(c, v, es);
            && Subsequence(l.read + OfType(v'.pipe, t) + v'.queues[t], Held(v, t) + l.arrived)
            && Subsequence(l.flushed + v'.queues[t], Held(v, t) + l.arrived)
  {
    var held := Held(v, t);
    if es == [] {
      InOrderAtFirst(OfType(v.pipe, t), v.queues[t]);
    } else {
      var before, e := es[..|es| - 1], es[|es| - 1];
      hide Entries, Next, OfType, Subsequence, Shift;
      RecordsInOrder(c, v, before, t);
      assert e in es;
      var mid := After(c, v, before);
      var l1, l2, v' := LedgerOf(c, v, before, t), Entries(c, mid, e, t), Next(c, mid, e);
      EventShifts(c, mid, e, t);
      ShiftKeepsOrder(l1.read, l1.flushed, OfType(mid.pipe, t), mid.queues[t], l2, OfType(v'.pipe, t), v'.queues[t],
                      held + l1.arrived);
      assert held + l1.arrived + l2.arrived == held + (l1.arrived + l2.arrived);
    }
  }
}
