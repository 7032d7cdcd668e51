/** What the storage module does with each message, as one table over its three leaf states. The records
    are of any type `R`: nothing here looks inside them. */
module StorageSpec {
  import opened Common
  import BoundedFifo
  import Framing
  import Slots

  /** The registered types, RECORDS_PER_TYPE, the batch buffer size and STORAGE_MAX_DATA_SIZE. */
  datatype Config = Config(types: seq<DataType>, cap: nat, budget: nat, maxData: nat)

  ghost predicate ConfigOk(c: Config) {
    && 0 < c.cap
    && Registered(c.types)
    && forall t :: 0 <= t < |c.types| ==> c.types[t].size <= c.maxData
  }

  datatype Leaf = Passthrough | BufferIdle | PipeActive

  /** `struct pipe_session`. */
  datatype Session = Session(id: UInt32, total: nat, sent: nat, more: bool)

  const NO_SESSION := Session(0, 0, 0, false)

  /** `enum storage_msg_type` with the fields each type uses. A rejection always carries
      STORAGE_REJECT_BATCH_ACTIVE. */
  datatype StorageMsg =
    | PassthroughRequest
    | BufferRequest
    | Flush
    | Clear
    | BatchRequest(id: UInt32)
    | BatchClose(id: UInt32)
    | Stats
    | ModePassthrough
    | ModeBuffer
    | ModeRejected
    | BatchAvailable(id: UInt32, items: nat, more: bool)
    | BatchEmpty(id: UInt32)
    | BatchError(id: UInt32)
    | BatchBusy(id: UInt32)

  /** What the module's subscriber receives: a sample on the channel of type `ty`, which the type's
      check function finds relevant or not; a message on STORAGE_CHAN; the private timeout message. */
  datatype Input<R> = Sample(ty: nat, rec: R, relevant: bool) | Channel(msg: StorageMsg) | SessionTimeout

  /** What it publishes: on STORAGE_CHAN, or a record on STORAGE_DATA_CHAN. */
  datatype Output<R> = Publish(msg: StorageMsg) | Data(ty: nat, rec: R)

  /** A record on its way to the consumer. */
  datatype Item<R> = Item(ty: nat, rec: R)

  /** `queues` are the backend's, `pipe` the unread items, `armed` the session timeout. */
  datatype View<R> = View(
    leaf: Leaf,
    session: Session,
    queues: seq<seq<R>>,
    pipe: seq<Item<R>>,
    armed: bool)

  /** The module at start-up, with what the backend has recovered. */
  function StartUp<R>(initial: Leaf, qs: seq<seq<R>>): View<R> {
    View(initial, NO_SESSION, qs, [], false)
  }

  ghost predicate InputOk<R>(c: Config, i: Input<R>) {
    i.Sample? ==> i.ty < |c.types|
  }

  predicate TypesBelow<R>(items: seq<Item<R>>, n: nat) {
    forall i :: 0 <= i < |items| ==> items[i].ty < n
  }

  function Items<R>(ty: nat, recs: seq<R>): (items: seq<Item<R>>)
    ensures |items| == |recs|
  {
    seq(|recs|, i requires 0 <= i < |recs| => Item(ty, recs[i]))
  }

  lemma ItemsSnoc<R>(ty: nat, recs: seq<R>, k: nat)
    requires k < |recs|
    ensures Items(ty, recs[..k]) + [Item(ty, recs[k])] == Items(ty, recs[..k + 1])
  {
  }

  /** The records of type `ty`, in order. */
  function OfType<R>(items: seq<Item<R>>, ty: nat): seq<R> {
    if items == [] then []
    else
      var last := items[|items| - 1];
      OfType(items[..|items| - 1], ty) + (if last.ty == ty then [last.rec] else [])
  }

  function FrameSize(c: Config, ty: nat): (n: nat)
    requires ty < |c.types|
    ensures n >= Framing.HEADER_SIZE
  {
    Framing.HEADER_SIZE + c.types[ty].size
  }

  function TotalCount<R>(qs: seq<seq<R>>): nat {
    if qs == [] then 0 else TotalCount(qs[..|qs| - 1]) + |qs[|qs| - 1]|
  }

  // ---- Filling the pipe ----

  /** As many frames as the room holds. */
  function Fit(n: nat, room: nat, frame: nat): (k: nat)
    requires 0 < frame
    ensures k <= n && k * frame <= room
  {
    FitBounds(n, room, frame);
    Min(n, room / frame)
  }

  lemma FitBounds(n: nat, room: nat, frame: nat)
    requires 0 < frame
    ensures var k := Min(n, room / frame);
            && 0 <= k <= n
            && k * frame <= room
            && (k < n ==> room - k * frame < frame)
            && (n > 0 && frame <= room ==> k > 0)
  {
    var k, d := Min(n, room / frame), room / frame;
    assert room == d * frame + room % frame;
    assert (d - k) * frame >= 0;
    assert (d - k) * frame == d * frame - k * frame;
  }

  /** Taking frames until none are left or the next does not fit takes exactly the share. */
  lemma FitUnique(n: nat, room: nat, frame: nat, k: nat)
    requires 0 < frame && k <= n && k * frame <= room
    requires k == n || room - k * frame < frame
    ensures k == Fit(n, room, frame)
  {
    FitBounds(n, room, frame);
    Slots.GapsAreWide(k, Fit(n, room, frame), frame);
    Slots.GapsAreWide(Fit(n, room, frame), k, frame);
  }

  lemma NextMultiple(k: nat, frame: nat)
    ensures (k + 1) * frame == k * frame + frame
  {
  }

  /** A type with records that are too long for a frame header. */
  predicate Unframable<R>(c: Config, qs: seq<seq<R>>, t: nat)
    requires t < |c.types| == |qs|
  {
    |qs[t]| > 0 && (c.types[t].size > c.maxData || c.types[t].size > UINT16_MAX)
  }

  /** How many of its oldest records each type from `t` on gives: in the order of registration, as many
      as still fit. A type whose records cannot be framed stops the batch. */
  function Shares<R>(c: Config, qs: seq<seq<R>>, t: nat, room: nat): (shares: seq<nat>)
    requires |qs| == |c.types| && t <= |qs|
    ensures |shares| == |qs| - t
    ensures forall u :: t <= u < |qs| ==> shares[u - t] <= |qs[u]|
    decreases |qs| - t
  {
    if t == |qs| then []
    else if Unframable(c, qs, t) then seq(|qs| - t, _ => 0)
    else
      var k := Fit(|qs[t]|, room, FrameSize(c, t));
      [k] + Shares(c, qs, t + 1, room - k * FrameSize(c, t))
  }

  ghost predicate SharesOk<R>(qs: seq<seq<R>>, shares: seq<nat>) {
    |shares| == |qs| && forall u :: 0 <= u < |qs| ==> shares[u] <= |qs[u]|
  }

  /** The items those shares put in the pipe, and what they leave behind. */
  function Moved<R>(qs: seq<seq<R>>, shares: seq<nat>, t: nat): seq<Item<R>>
    requires SharesOk(qs, shares) && t <= |qs|
    decreases |qs| - t
  {
    if t == |qs| then [] else Items(t, qs[t][..shares[t]]) + Moved(qs, shares, t + 1)
  }

  function Left<R>(qs: seq<seq<R>>, shares: seq<nat>): (left: seq<seq<R>>)
    requires SharesOk(qs, shares)
    ensures |left| == |qs|
  {
    seq(|qs|, u requires 0 <= u < |qs| => qs[u][shares[u]..])
  }

  /** The first type whose records cannot be framed, or the number of types. */
  function FirstUnframable<R>(c: Config, qs: seq<seq<R>>, t: nat): (stop: nat)
    requires |qs| == |c.types| && t <= |qs|
    ensures t <= stop <= |qs|
    ensures stop < |qs| ==> Unframable(c, qs, stop)
    ensures forall u :: t <= u < stop ==> !Unframable(c, qs, u)
    decreases |qs| - t
  {
    if t == |qs| || Unframable(c, qs, t) then t else FirstUnframable(c, qs, t + 1)
  }

  /** What a batch takes from the backend, and how it ends. */
  datatype Packed<R> = Packed(moved: seq<Item<R>>, left: seq<seq<R>>, more: bool, failed: bool)

  function Pack<R>(c: Config, qs: seq<seq<R>>): (p: Packed<R>)
    requires |qs| == |c.types|
    ensures |p.left| == |qs|
  {
    var shares := Shares(c, qs, 0, c.budget);
    var stop := FirstUnframable(c, qs, 0);
    Packed(Moved(qs, shares, 0), Left(qs, shares),
           exists t :: 0 <= t < stop && shares[t] < |qs[t]|, stop < |qs|)
  }

  // ---- Messages ----

  datatype Started<R> = Started(view: View<R>, reply: StorageMsg, err: int)

  /** `start_batch_session`. */
  function Start<R>(c: Config, v: View<R>, id: UInt32): Started<R>
    requires |v.queues| == |c.types|
  {
    if id == 0 then Started(v, BatchError(id), -EINVAL)
    else if TotalCount(v.queues) == 0 then Started(v, BatchEmpty(id), -ENODATA)
    else
      var p := Pack(c, v.queues);
      var v' := v.(session := Session(id, TotalCount(v.queues), |p.moved|, p.more), queues := p.left, pipe := p.moved);
      if p.failed then Started(v', BatchError(id), -EIO)
      else Started(v', BatchAvailable(id, Min(|p.moved|, UINT16_MAX), p.more), 0)
  }

  function Append<R>(c: Config, v: View<R>, ty: nat, rec: R): View<R>
    requires 0 < c.cap && ty < |v.queues|
  {
    v.(queues := v.queues[ty := BoundedFifo.Push(v.queues[ty], rec, c.cap)])
  }

  function Emptied<R>(qs: seq<seq<R>>): seq<seq<R>> {
    seq(|qs|, _ => [])
  }

  /** All records, type by type in the order of registration, oldest first. */
  function AllData<R>(qs: seq<seq<R>>): seq<Output<R>> {
    if qs == [] then [] else AllData(qs[..|qs| - 1]) + DataOf(|qs| - 1, qs[|qs| - 1])
  }

  function DataOf<R>(ty: nat, recs: seq<R>): (outs: seq<Output<R>>)
    ensures |outs| == |recs|
  {
    seq(|recs|, i requires 0 <= i < |recs| => Data(ty, recs[i]))
  }

  lemma DataSnoc<R>(ty: nat, recs: seq<R>, k: nat)
    requires k < |recs|
    ensures DataOf(ty, recs[..k]) + [Data(ty, recs[k])] == DataOf(ty, recs[..k + 1])
  {
  }

  /** The session ends: timeout cancelled, pipe drained, record zeroed. */
  function Close<R>(v: View<R>): View<R> {
    v.(leaf := BufferIdle, session := NO_SESSION, pipe := [], armed := false)
  }

  /** One message. */
  function Step<R>(c: Config, v: View<R>, input: Input<R>): (View<R>, seq<Output<R>>)
    requires 0 < c.cap && |v.queues| == |c.types|
    requires input.Sample? ==> input.ty < |c.types|
  {
    match input
    case Sample(ty, rec, relevant) =>
      if !relevant then (v, [])
      else if v.leaf == Passthrough then (v, [Data(ty, rec)])
      else (Append(c, v, ty, rec), [])
    case SessionTimeout =>
      if v.leaf == PipeActive then (Close(v), [Publish(BatchClose(v.session.id))]) else (v, [])
    case Channel(msg) =>
      match (msg, v.leaf)
      case (PassthroughRequest, PipeActive) => (v, [Publish(ModeRejected)])
      case (PassthroughRequest, _) => (v.(leaf := Passthrough), [Publish(ModePassthrough)])
      case (BufferRequest, Passthrough) => (v.(leaf := BufferIdle), [Publish(ModeBuffer)])
      case (BufferRequest, _) => (v, [Publish(ModeBuffer)])
      case (Flush, _) => (v.(queues := Emptied(v.queues)), AllData(v.queues))
      case (Clear, PipeActive) => (v, [])
      case (Clear, _) => (v.(queues := Emptied(v.queues)), [])
      case (BatchRequest(id), Passthrough) => (v, [Publish(BatchError(id))])
      case (BatchRequest(id), BufferIdle) =>
        var s := Start(c, v.(leaf := PipeActive, session := v.session.(id := id)), id);
        if s.err == 0 then (s.view.(armed := true), [Publish(s.reply)])
        else if s.err == -ENODATA then (s.view, [Publish(s.reply), Publish(BatchEmpty(id))])
        else (s.view, [Publish(s.reply), Publish(BatchError(id))])
      case (BatchRequest(id), PipeActive) =>
        if v.session.id != 0 && v.session.id != id then (v, [Publish(BatchBusy(id))])
        else
          var s := Start(c, v, id);
          (s.view.(armed := true), [Publish(s.reply)])
      case (BatchClose(id), PipeActive) =>
        if v.session.id == id then (Close(v), []) else (v, [])
      case _ => (v, [])
  }

  /** The consumer takes one item from the pipe, or finds it empty. */
  function Read<R>(v: View<R>): (View<R>, Option<Item<R>>) {
    if v.pipe == [] then (v, None) else (v.(pipe := v.pipe[1..]), Some(v.pipe[0]))
  }
}
