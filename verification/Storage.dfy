/** The storage module: its state object, its handlers, and the proof that one message does exactly what
    the table in StorageSpec says. */
module Storage {
  import opened Common
  import opened StorageSpec
  import opened Filling
  import opened Packing
  import opened Framing
  import opened FramePipe
  import Backend
  import Pipe

  /** How an item looks on the wire. */
  function Wire(c: Config, item: Item<Record>): Frame
    requires item.ty < |c.types|
  {
    Frame(c.types[item.ty].id % 256, item.rec)
  }

  /** With enumerators below 256 the consumer can tell which type a frame is of: it finds the record under the
      enumerator of its type, and under no other. */
  lemma WireIdentifies(c: Config, a: Item<Record>, b: Item<Record>)
    requires Registered(c.types) && a.ty < |c.types| && b.ty < |c.types|
    requires c.types[a.ty].id < 256 && c.types[b.ty].id < 256
    ensures Wire(c, a) == Wire(c, b) <==> a == b
    ensures DataUnder([Wire(c, a)], c.types[b.ty].id) == if a.ty == b.ty then [a.rec] else []
  {
    if a.ty != b.ty {
      assert c.types[Min(a.ty, b.ty)].id != c.types[Max(a.ty, b.ty)].id;
    }
    assert [Wire(c, a)][..0] == [];
  }

  ghost function WireAll(c: Config, items: seq<Item<Record>>): (frames: seq<Frame>)
    requires TypesBelow(items, |c.types|)
    ensures |frames| == |items|
  {
    seq(|items|, i requires 0 <= i < |items| => Wire(c, items[i]))
  }

  /** The enumerators fit the type byte. */
  ghost predicate EnumeratorsFit(c: Config) {
    Registered(c.types) && forall t :: 0 <= t < |c.types| ==> c.types[t].id < 256
  }

  /** The consumer finds the records of each type, in order and byte for byte, in the frames that carry the
      enumerator of the type. */
  lemma {:induction false} WireSorts(c: Config, items: seq<Item<Record>>, t: nat)
    requires EnumeratorsFit(c) && TypesBelow(items, |c.types|) && t < |c.types|
    ensures DataUnder(WireAll(c, items), c.types[t].id) == OfType(items, t)
  {
    if items != [] {
      var front, last := items[..|items| - 1], items[|items| - 1];
      WireSorts(c, front, t);
      WireIdentifies(c, last, Item(t, last.rec));
      assert WireAll(c, items) == WireAll(c, front) + [Wire(c, last)];
      DataUnderConcat(WireAll(c, front), [Wire(c, last)], c.types[t].id);
    }
  }

  ghost predicate ItemsOk(c: Config, items: seq<Item<Record>>) {
    && TypesBelow(items, |c.types|)
    && forall i :: 0 <= i < |items| ==>
         |items[i].rec| == c.types[items[i].ty].size && |items[i].rec| <= UINT16_MAX
  }

  class Storage {
    const c: Config
    const backend: Backend.Backend
    const pipe: Pipe.Pipe
    var leaf: Leaf
    var session: Session
    var armed: bool
    var outbox: seq<Output<Record>>
    ghost var items: seq<Item<Record>>

    ghost predicate Valid()
      reads this, backend, pipe
    {
      && ConfigOk(c)
      && backend.Valid() && backend.types == c.types && backend.cap == c.cap
      && pipe.Valid() && pipe.capacity == c.budget
      && ItemsOk(c, items)
      && Encodes(pipe.contents, WireAll(c, items))
    }

    /** The state the table speaks of. */
    ghost function State(): (v: View<Record>)
      reads this, backend
    {
      View(leaf, session, backend.queues, items, armed)
    }

    /** The module at start-up: no session, an empty pipe, and whatever the backend recovered. */
    constructor (c: Config, backend: Backend.Backend, initial: Leaf)
      requires ConfigOk(c) && backend.Valid() && backend.types == c.types && backend.cap == c.cap
      requires initial != PipeActive
      ensures Valid() && this.c == c && this.backend == backend && outbox == []
      ensures State() == StartUp(initial, backend.queues)
      ensures fresh(pipe)
    {
      this.c, this.backend := c, backend;
      pipe := new Pipe.Pipe(c.budget);
      leaf, session, armed, outbox := initial, NO_SESSION, false, [];
      items := [];
    }

    method Send(msg: StorageMsg)
      requires Valid()
      modifies this`outbox
      ensures Valid() && outbox == old(outbox) + [Publish(msg)]
    {
      outbox := outbox + [Publish(msg)];
    }

    method DrainPipe()
      requires Valid()
      modifies this`items, pipe
      ensures Valid() && items == [] && pipe.contents == []
    {
      items := [];
      var ret := 1;
      while ret > 0
        invariant pipe.Valid() && items == [] && (ret > 0 || pipe.contents == [])
        decreases |pipe.contents|, ret
      {
        var bytes;
        ret, bytes := pipe.Read(64);
      }
    }

    // ---- Samples ----

    method HandleDataMessage(ty: nat, rec: Record, relevant: bool)
      requires Valid() && ty < |c.types| && |rec| == c.types[ty].size
      modifies backend
      ensures Valid()
      ensures State() == if relevant then Append(c, old(State()), ty, rec) else old(State())
    {
      if !relevant {
        return;
      }
      var err := backend.Store(ty, rec);
    }

    method PassthroughDataMessage(ty: nat, rec: Record, relevant: bool)
      requires Valid() && ty < |c.types|
      modifies this`outbox
      ensures Valid() && outbox == old(outbox) + if relevant then [Data(ty, rec)] else []
    {
      if !relevant {
        return;
      }
      outbox := outbox + [Data(ty, rec)];
    }

    /** One type of `flush_stored_data`. */
    method FlushType(t: nat)
      requires Valid() && t < |c.types|
      modifies this`outbox, backend
      ensures Valid() && outbox == old(outbox) + DataOf(t, old(backend.queues)[t])
      ensures backend.queues == old(backend.queues)[t := []]
    {
      assert c.types[t].size <= c.maxData;
      hide ConfigOk, ItemsOk, WireAll, Encodes, DataOf;
      ghost var q, k := backend.queues[t], 0;
      assert q[0..] == q && DataOf(t, q[..0]) == [] && q[..|q|] == q;
      var count := backend.Count(t);
      while count > 0
        invariant Valid() && 0 <= count && k + count == |q|
        invariant backend.queues == old(backend.queues)[t := q[k..]]
        invariant outbox == old(outbox) + DataOf(t, q[..k])
      {
        var ret, data := backend.Retrieve(t, c.maxData);
        if ret < 0 {
          break;
        }
        DataSnoc(t, q, k);
        outbox := outbox + [Data(t, data)];
        count := count - 1;
        k := k + 1;
      }
    }

    method FlushStoredData()
      requires Valid()
      modifies this`outbox, backend
      ensures Valid() && outbox == old(outbox) + AllData(old(backend.queues))
      ensures backend.queues == Emptied(old(backend.queues))
    {
      hide ConfigOk, ItemsOk, WireAll, Encodes;
      ghost var qs := backend.queues;
      for t := 0 to |c.types|
        invariant Valid() && outbox == old(outbox) + AllData(qs[..t])
        invariant forall u :: 0 <= u < |qs| ==> backend.queues[u] == if u < t then [] else qs[u]
      {
        FlushType(t);
        assert qs[..t + 1][..t] == qs[..t];
      }
      assert qs[..|qs|] == qs;
    }

    // ---- Batches ----

    /** The oldest record of a type goes from the backend to the pipe. */
    method MoveOne(t: nat)
      requires Valid() && t < |c.types| && backend.queues[t] != [] && !Unframable(c, backend.queues, t)
      requires |pipe.contents| + FrameSize(c, t) <= c.budget
      modifies this`items, backend, pipe
      ensures Valid() && |pipe.contents| == |old(pipe.contents)| + FrameSize(c, t)
      ensures items == old(items) + [Item(t, old(backend.queues)[t][0])]
      ensures backend.queues == old(backend.queues)[t := old(backend.queues)[t][1..]]
    {
      var ret, data := backend.Retrieve(t, c.maxData);
      var item := Item(t, data);
      ret := WriteFrame(pipe, Wire(c, item), WireAll(c, items));
      assert WireAll(c, items + [item]) == WireAll(c, items) + [Wire(c, item)];
      items := items + [item];
    }

    /** The inner loop of `populate_pipe` has moved `k` records of type `t` since state `v`, when the
        pipe held `sent` bytes. */
    ghost predicate Taken(v: View<Record>, sent: nat, t: nat, k: nat)
      requires Valid() && t < |c.types| == |v.queues| && k <= |v.queues[t]|
      reads this, backend, pipe
    {
      && State() == TakenFrom(v, t, k)
      && |pipe.contents| == sent + k * FrameSize(c, t)
    }

    /** One turn of that loop: the size of the frame moved, or an error. */
    method MoveNext(ghost v: View<Record>, ghost sent: nat, t: nat, total: nat, ghost k: nat)
      returns (ret: int, fits: bool)
      requires Valid() && t < |c.types| == |v.queues| && total == |pipe.contents|
      requires k < |v.queues[t]| && Taken(v, sent, t, k)
      modifies this`items, this`session, backend, pipe
      ensures Valid()
      ensures Unframable(c, v.queues, t) ==> ret == -EIO
      ensures !Unframable(c, v.queues, t) ==>
                ret == FrameSize(c, t) && (fits <==> total + FrameSize(c, t) <= c.budget)
      ensures ret < 0 || !fits ==> Taken(v, sent, t, k) && |pipe.contents| == total
      ensures ret >= 0 && fits ==> Taken(v, sent, t, k + 1) && |pipe.contents| == total + ret
    {
      fits := false;
      var size := backend.PeekSize(t);
      if size == -EAGAIN {
        return size, fits;
      } else if size < 0 {
        return -EIO, fits;
      }
      if size > c.maxData || size > UINT16_MAX {
        return -EIO, fits;
      }
      ret := HEADER_SIZE + size;
      if total + ret > c.budget {
        return;
      }
      fits := true;
      MoveOne(t);
      session := session.(sent := session.sent + 1);
      TakenNext(v, t, k);
      NextMultiple(k, FrameSize(c, t));
    }

    /** The inner loop for one type: `sent` bytes are already in the pipe. */
    method PopulateType(t: nat, sent: nat) returns (ret: int, total: nat)
      requires Valid() && t < |c.types| && sent == |pipe.contents|
      modifies this`items, this`session, backend, pipe
      ensures Valid() && total == |pipe.contents|
      ensures Unframable(c, old(backend.queues), t) ==>
                ret == -EIO && State() == old(State()) && total == sent
      ensures !Unframable(c, old(backend.queues), t) ==>
                var q := old(backend.queues)[t];
                var k := Fit(|q|, c.budget - sent, FrameSize(c, t));
                && ret == 0
                && State() == MoreIf(TakenFrom(old(State()), t, k), k < |q|)
                && total == sent + k * FrameSize(c, t)
    {
      hide ConfigOk, ItemsOk, WireAll, Encodes;
      ghost var v, q, k := State(), backend.queues[t], 0;
      TakenNone(v, t);
      total := sent;
      var count := backend.Count(t);
      while count > 0
        invariant Valid() && 0 <= count && k + count == |q|
        invariant Unframable(c, v.queues, t) ==> k == 0
        invariant total == |pipe.contents| && Taken(v, sent, t, k)
      {
        var fits;
        ret, fits := MoveNext(v, sent, t, total, k);
        if ret == -EAGAIN {
          break;
        } else if ret < 0 {
          return;
        }
        if !fits {
          session := session.(more := true);
          break;
        }
        total := total + ret;
        count := count - 1;
        k := k + 1;
      }
      FitUnique(|q|, c.budget - sent, FrameSize(c, t), k);
      return 0, total;
    }

    /** One turn of the outer loop. */
    method PopulateTurn(ghost v: View<Record>, ghost shares: seq<nat>, t: nat, sent: nat) returns (ret: int, total: nat)
      requires Valid() && t < |c.types| == |v.queues| && sent == |pipe.contents|
      requires Reached(c, v, shares, t, c.budget - sent, State())
      modifies this`items, this`session, backend, pipe
      ensures Valid() && total == |pipe.contents|
      ensures Unframable(c, v.queues, t) ==> ret == -EIO && State() == old(State()) && total == sent
      ensures !Unframable(c, v.queues, t) ==> ret == 0 && Reached(c, v, shares, t + 1, c.budget - total, State())
    {
      hide ConfigOk, ItemsOk, WireAll, Encodes, Reached, TakenFrom, MoreIf, Fit;
      ghost var w := State();
      ReachedNow(c, v, shares, t, c.budget - sent, w);
      if !Unframable(c, v.queues, t) {
        ReachedNext(c, v, shares, t, c.budget - sent, w);
      }
      ret, total := PopulateType(t, sent);
    }

    /** The outer loop. */
    method PopulateTypes() returns (ret: int)
      requires Valid() && items == [] && pipe.contents == [] && !session.more
      modifies this`items, this`session, backend, pipe
      ensures Valid()
      ensures var p := Pack(c, old(State()).queues);
              ret == (if p.failed then -EIO else 0) && State() == Batched(old(State()), p)
    {
      hide ConfigOk, ItemsOk, WireAll, Encodes, Filled, SharesFrom, Batched, Pack;
      ghost var v := State();
      ghost var shares := Shares(c, v.queues, 0, c.budget);
      WholeShares(c, v.queues);
      FilledNone(v, shares);
      var total := 0;
      for t := 0 to |c.types|
        invariant Valid() && total == |pipe.contents|
        invariant t <= FirstUnframable(c, v.queues, 0)
        invariant Reached(c, v, shares, t, c.budget - total, State())
      {
        ret, total := PopulateTurn(v, shares, t, total);
        if ret < 0 {
          ReachedEnd(c, v, shares, t, c.budget - total, State());
          return;
        }
      }
      ReachedEnd(c, v, shares, |c.types|, c.budget - total, State());
      return 0;
    }

    /** `populate_pipe`. */
    method PopulatePipe() returns (ret: int)
      requires Valid() && items == [] && pipe.contents == []
      modifies this`items, this`session, backend, pipe
      ensures Valid()
      ensures var p := Pack(c, old(backend.queues));
              && ret == (if p.failed then -EIO else 0)
              && State() == Batched(old(State()), p)
    {
      hide ConfigOk, ItemsOk, WireAll, Encodes, Pack;
      session := session.(more := false);
      ret := PopulateTypes();
    }

    method CountAll() returns (total: nat)
      requires Valid()
      ensures total == TotalCount(backend.queues)
    {
      total := 0;
      for t := 0 to |c.types|
        invariant total == TotalCount(backend.queues[..t])
      {
        var count := backend.Count(t);
        assert backend.queues[..t + 1][..t] == backend.queues[..t];
        if count > 0 {
          total := total + count;
        }
      }
      assert backend.queues[..|c.types|] == backend.queues;
    }

    method StartBatchSession(id: UInt32) returns (err: int)
      requires Valid()
      modifies this`items, this`session, this`outbox, backend, pipe
      ensures Valid()
      ensures var s := Start(c, old(State()), id);
              State() == s.view && outbox == old(outbox) + [Publish(s.reply)] && err == s.err
    {
      hide ConfigOk, ItemsOk, WireAll, Encodes, Pack, TotalCount;
      if id == 0 {
        Send(BatchError(id));
        return -EINVAL;
      }
      var total := CountAll();
      if total == 0 {
        Send(BatchEmpty(id));
        return -ENODATA;
      }
      DrainPipe();
      session := Session(id, total, 0, session.more);
      err := PopulatePipe();
      if err < 0 {
        Send(BatchError(id));
        return;
      }
      Send(BatchAvailable(id, Min(session.sent, UINT16_MAX), session.more));
      return 0;
    }

    // ---- State handlers; the result says whether the message was handled ----

    /** STATE_RUNNING: administration, and the end of propagation. */
    method RunningRun(input: Input<Record>)
      requires Valid()
      modifies this`outbox, backend
      ensures Valid()
      ensures match input
              case Channel(Clear) =>
                State() == old(State()).(queues := Emptied(old(backend.queues))) && outbox == old(outbox)
              case Channel(Flush) =>
                && State() == old(State()).(queues := Emptied(old(backend.queues)))
                && outbox == old(outbox) + AllData(old(backend.queues))
              case _ => State() == old(State()) && outbox == old(outbox)
    {
      if input == Channel(Clear) {
        var err := backend.Clear();
      } else if input == Channel(Flush) {
        FlushStoredData();
      }
    }

    ghost predicate Arriving(input: Input<Record>) {
      input.Sample? ==> input.ty < |c.types| && |input.rec| == c.types[input.ty].size
    }

    ghost predicate Handled(v: View<Record>, input: Input<Record>, sent: seq<Output<Record>>)
      requires Valid() && Arriving(input) && |v.queues| == |c.types|
      reads this, backend, pipe
    {
      var (v', outs) := Step(c, v, input);
      State() == v' && outbox == sent + outs
    }

    method PassthroughRun(input: Input<Record>) returns (handled: bool)
      requires Valid() && Arriving(input) && leaf == Passthrough
      modifies this`leaf, this`outbox
      ensures Valid()
      ensures handled <==> input.Sample? || input == Channel(PassthroughRequest) || input == Channel(BufferRequest)
      ensures handled ==> Handled(old(State()), input, old(outbox))
      ensures input.Sample? ==>
                && State() == old(State())
                && outbox == old(outbox) + if input.relevant then [Data(input.ty, input.rec)] else []
      ensures !handled ==>
                && State() == old(State())
                && outbox == old(outbox)
                   + if input.Channel? && input.msg.BatchRequest? then [Publish(BatchError(input.msg.id))] else []
    {
      if input.Sample? {
        PassthroughDataMessage(input.ty, input.rec, input.relevant);
        return true;
      }
      if input.Channel? {
        match input.msg {
          case PassthroughRequest =>
            Send(ModePassthrough);
            return true;
          case BufferRequest =>
            Send(ModeBuffer);
            leaf := BufferIdle;
            return true;
          case BatchRequest(id) =>
            Send(BatchError(id));
          case _ =>
        }
      }
      return false;
    }

    /** STATE_BUFFER: what its two leaf states share. */
    method BufferRun(input: Input<Record>) returns (handled: bool)
      requires Valid() && Arriving(input) && leaf != Passthrough
      modifies this`outbox, backend
      ensures Valid()
      ensures handled <==> input.Sample? || input == Channel(BufferRequest)
      ensures handled ==> Handled(old(State()), input, old(outbox))
      ensures !handled ==> State() == old(State()) && outbox == old(outbox)
    {
      if input.Sample? {
        HandleDataMessage(input.ty, input.rec, input.relevant);
        return true;
      }
      if input == Channel(BufferRequest) {
        Send(ModeBuffer);
        return true;
      }
      return false;
    }

    method BufferIdleRun(input: Input<Record>) returns (handled: bool)
      requires Valid() && Arriving(input) && leaf == BufferIdle
      modifies this, backend, pipe
      ensures Valid()
      ensures handled <==> input == Channel(PassthroughRequest) || (input.Channel? && input.msg.BatchRequest?)
      ensures handled ==> Handled(old(State()), input, old(outbox))
      ensures !handled ==> State() == old(State()) && outbox == old(outbox)
    {
      hide ConfigOk, ItemsOk, WireAll, Encodes, Append, AllData;
      if input.Channel? {
        match input.msg {
          case PassthroughRequest =>
            Send(ModePassthrough);
            leaf := Passthrough;
            return true;
          case BatchRequest(id) =>
            session := session.(id := id);
            leaf := PipeActive;
            PipeActiveEntry(id);
            return true;
          case _ =>
        }
      }
      return false;
    }

    /** Entry action of STATE_BUFFER_PIPE_ACTIVE; failures are reported a second time here. */
    method PipeActiveEntry(id: UInt32)
      requires Valid()
      modifies this`items, this`session, this`armed, this`outbox, backend, pipe
      ensures Valid()
      ensures var s := Start(c, old(State()), id);
              && State() == s.view.(armed := old(armed) || s.err == 0)
              && outbox == old(outbox) + [Publish(s.reply)]
                 + (if s.err == 0 then [] else if s.err == -ENODATA then [Publish(BatchEmpty(id))]
                    else [Publish(BatchError(id))])
    {
      var err := StartBatchSession(id);
      if err == -ENODATA {
        Send(BatchEmpty(id));
        return;
      } else if err != 0 {
        Send(BatchError(id));
        return;
      }
      armed := true;
    }

    /** Exit action of STATE_BUFFER_PIPE_ACTIVE. */
    method PipeActiveExit()
      requires Valid()
      modifies this`items, this`session, this`armed, pipe
      ensures Valid() && leaf == old(leaf)
      ensures session == NO_SESSION && items == [] && !armed
    {
      armed := false;
      DrainPipe();
      session := NO_SESSION;
    }

    method PipeActiveRun(input: Input<Record>) returns (handled: bool)
      requires Valid() && Arriving(input) && leaf == PipeActive
      modifies this, backend, pipe
      ensures Valid()
      ensures handled <==>
                || input.SessionTimeout?
                || (input.Channel? && (input.msg.Clear? || input.msg.BatchClose? || input.msg.BatchRequest?
                                       || input.msg.PassthroughRequest?))
      ensures handled ==> Handled(old(State()), input, old(outbox))
      ensures !handled ==> State() == old(State()) && outbox == old(outbox)
    {
      if input.Channel? {
        match input.msg {
          case Clear =>
            return true;
          case BatchClose(id) =>
            if session.id == id {
              PipeActiveExit();
              leaf := BufferIdle;
            }
            return true;
          case BatchRequest(id) =>
            if session.id != 0 && session.id != id {
              Send(BatchBusy(id));
              return true;
            }
            var err := StartBatchSession(id);
            armed := true;
            return true;
          case PassthroughRequest =>
            Send(ModeRejected);
            return true;
          case _ =>
        }
      }
      if input.SessionTimeout? {
        Send(BatchClose(session.id));
        PipeActiveExit();
        leaf := BufferIdle;
        return true;
      }
      return false;
    }

    /** One pass of the thread's loop: the leaf handler, then its ancestors until one has handled the
        message. The whole pass does what the flat table says. */
    method Process(input: Input<Record>)
      requires Valid() && Arriving(input)
      modifies this, backend, pipe
      ensures Valid()
      ensures old(outbox) <= outbox
      ensures (State(), outbox[|old(outbox)|..]) == Step(c, old(State()), input)
    {
      hide ConfigOk, ItemsOk, WireAll, Encodes, Start, Append, AllData;
      ghost var v, sent := State(), outbox;
      var handled;
      match leaf {
        case Passthrough =>
          handled := PassthroughRun(input);
        case BufferIdle =>
          handled := BufferIdleRun(input);
          if !handled {
            handled := BufferRun(input);
          }
        case PipeActive =>
          handled := PipeActiveRun(input);
          if !handled {
            handled := BufferRun(input);
          }
      }
      if !handled {
        RunningRun(input);
      }
      assert Handled(v, input, sent);
    }

    /** `storage_batch_read`, which the consumer's thread calls. */
    method BatchRead() returns (ret: int, item: Frame)
      requires Valid()
      modifies this`items, pipe
      ensures Valid()
      ensures var (v, got) := Read(old(State()));
              && State() == v
              && (got.None? ==> ret == -EAGAIN)
              && (got.Some? ==> got.value.ty < |c.types| && ret == 0 && item == Wire(c, got.value))
              && (got.Some? ==> item.data == got.value.rec)
              && (got.Some? && c.types[got.value.ty].id < 256 ==> item.ty == c.types[got.value.ty].id)
    {
      ret, item := ReadFrame(pipe, c.maxData, true, WireAll(c, items));
      if items != [] {
        assert WireAll(c, items[1..]) == WireAll(c, items)[1..];
        items := items[1..];
      }
    }
  }
}
