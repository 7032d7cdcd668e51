/** The RAM backend: one byte ring buffer per registered data type, holding records back to back. */
module RamBackend {
  import opened Common
  import opened BoundedFifo
  import RingBuffer

  /** The bytes of a queue of records, oldest first. */
  ghost function Flatten(q: seq<Record>): (bytes: seq<Byte>) {
    if q == [] then [] else Flatten(q[..|q| - 1]) + q[|q| - 1]
  }

  ghost predicate AllSized(q: seq<Record>, size: nat) {
    forall i :: 0 <= i < |q| ==> |q[i]| == size
  }

  /** The used bytes are always a whole number of records. */
  lemma {:induction false} FlattenLength(q: seq<Record>, size: nat)
    requires AllSized(q, size)
    ensures |Flatten(q)| == |q| * size
  {
    if q != [] {
      FlattenLength(q[..|q| - 1], size);
      calc {
        |q| * size;
        (|q| - 1 + 1) * size;
        (|q| - 1) * size + size;
      }
    }
  }

  /** The oldest record is the first `size` bytes; dropping them drops exactly that record. */
  lemma {:induction false} FlattenHead(q: seq<Record>)
    requires q != []
    ensures Flatten(q) == q[0] + Flatten(q[1..])
  {
    if |q| > 1 {
      var front := q[..|q| - 1];
      FlattenHead(front);
      assert q[1..][..|q| - 2] == front[1..];
      assert q[1..][|q| - 2] == q[|q| - 1];
      assert Flatten(q) == (q[0] + Flatten(front[1..])) + q[|q| - 1];
    } else {
      assert q[..0] == [] && q[1..] == [];
    }
  }

  lemma DivideBack(n: nat, size: nat)
    requires size > 0
    ensures n * size / size == n
  {
    var d, r := n * size / size, n * size % size;
    assert (n - d) * size == r;
    assert (d - n) * size == -r;
    if n > d {
      TimesMonotone(1, n - d, size);
    } else if n < d {
      TimesMonotone(1, d - n, size);
    }
  }

  lemma TimesMonotone(a: nat, b: nat, size: nat)
    requires a <= b
    ensures a * size <= b * size
  {
  }

  /** A ring sized for `cap` records that holds exactly the queue `q`. */
  ghost predicate Holds(ring: RingBuffer.RingBuffer, q: seq<Record>, size: nat, cap: nat)
    reads ring, ring.data
  {
    && ring.Valid()
    && ring.data.Length == size * cap
    && ring.contents == Flatten(q)
  }

  class RamBackend {
    const types: seq<DataType>
    const cap: nat
    const rings: seq<RingBuffer.RingBuffer>
    var registered: nat
    ghost var queues: Queues

    ghost predicate Valid()
      reads this, rings, set r | r in rings :: r.data
    {
      && 0 < cap && Registered(types)
      && |rings| == |types|
      && QueuesOk(types, cap, queues)
      && (forall i, j :: 0 <= i < j < |rings| ==> rings[i] != rings[j] && rings[i].data != rings[j].data)
      && (forall i :: 0 <= i < |rings| ==> Holds(rings[i], queues[i], types[i].size, cap))
      && (registered == 0 || registered == |types|)
    }

    ghost predicate Initialized()
      reads this
    {
      registered == |types|
    }

    constructor (types: seq<DataType>, cap: nat)
      requires 0 < cap && Registered(types)
      ensures Valid() && this.types == types && this.cap == cap && registered == 0
      ensures fresh(rings) && fresh(set r | r in rings :: r.data)
      ensures queues == seq(|types|, _ => [])
    {
      var rs: seq<RingBuffer.RingBuffer> := [];
      for i := 0 to |types|
        invariant |rs| == i && fresh(rs) && fresh(set r | r in rs :: r.data)
        invariant forall j :: 0 <= j < i ==>
                    rs[j].Valid() && rs[j].data.Length == types[j].size * cap && rs[j].contents == []
        invariant forall j, k :: 0 <= j < k < i ==> rs[j] != rs[k] && rs[j].data != rs[k].data
      {
        TimesMonotone(1, cap, types[i].size);
        var r := new RingBuffer.RingBuffer(types[i].size * cap);
        rs := rs + [r];
      }
      this.types, this.cap, rings, registered := types, cap, rs, 0;
      queues := seq(|types|, _ => []);
    }

    method GetTypeIndex(ty: DataType) returns (idx: int)
      ensures ty !in types ==> idx == -1
      ensures ty in types ==> idx == IndexOf(types, ty)
    {
      for i := 0 to |types|
        invariant ty !in types[..i]
        invariant ty in types ==> IndexOf(types, ty) == i + IndexOf(types[i..], ty)
      {
        if types[i] == ty {
          return i;
        }
        assert types[i..][1..] == types[i + 1..];
      }
      return -1;
    }

    /** Room for a record exists exactly when the queue is below its capacity. */
    lemma SpaceMeansBelowCap(i: nat)
      requires Valid() && i < |types|
      ensures Holds(rings[i], queues[i], types[i].size, cap)
      ensures rings[i].Space() < types[i].size <==> |queues[i]| == cap
      ensures |queues[i]| == cap ==> |rings[i].contents| >= types[i].size
      ensures |rings[i].contents| == |queues[i]| * types[i].size
      ensures queues[i] != [] ==> |rings[i].contents| >= types[i].size
    {
      var q, size := queues[i], types[i].size;
      FlattenLength(q, size);
      if |q| < cap {
        TimesMonotone(|q| + 1, cap, size);
        assert (|q| + 1) * size == |q| * size + size;
      }
      if |q| > 0 {
        TimesMonotone(1, |q|, size);
      }
    }

    method Init() returns (ret: int)
      requires Valid() && registered == 0
      modifies this`registered
      ensures Valid() && ret == 0 && Initialized() && queues == old(queues)
    {
      for i := 0 to |types|
        invariant registered == i && queues == old(queues)
      {
        IndexOfAt(types, i);
        var idx := GetTypeIndex(types[i]);
        if idx < 0 {
          return -EINVAL;
        }
        registered := registered + 1;
      }
      return 0;
    }

    /** The effect of `ring_buf_get` for one record, shared by the two callers that consume. */
    method TakeOldest(idx: nat) returns (bytes: Record)
      requires Valid() && idx < |types| && queues[idx] != []
      modifies this`queues, rings
      ensures Valid()
      ensures bytes == old(queues)[idx][0]
      ensures queues == old(queues)[idx := old(queues)[idx][1..]]
    {
      SpaceMeansBelowCap(idx);
      FlattenHead(queues[idx]);
      bytes := rings[idx].Get(types[idx].size);
      queues := queues[idx := queues[idx][1..]];
    }

    /** The effect of `ring_buf_put` for one record, once there is room for it. */
    method Append(idx: nat, record: Record) returns (written: nat)
      requires Valid() && idx < |types| && |record| == types[idx].size
      requires |queues[idx]| < cap
      modifies this`queues, rings, set r | r in rings :: r.data
      ensures Valid() && written == |record|
      ensures queues == old(queues)[idx := old(queues)[idx] + [record]]
    {
      SpaceMeansBelowCap(idx);
      written := rings[idx].Put(record);
      queues := queues[idx := queues[idx] + [record]];
      assert queues[idx][..|queues[idx]| - 1] + [record] == queues[idx];
    }

    /** The first half of `ram_store`: a full ring gives up its oldest record. */
    method MakeRoom(idx: nat, size: nat) returns (ret: int)
      requires Valid() && idx < |types| && size == types[idx].size
      modifies this`queues, rings
      ensures Valid() && ret == 0 && |queues[idx]| < cap
      ensures var q := old(queues)[idx];
              queues == old(queues)[idx := if |q| < cap then q else q[1..]]
    {
      var ring := rings[idx];
      SpaceMeansBelowCap(idx);
      hide Holds;
      if ring.Space() < size {
        var dropped := TakeOldest(idx);
        if |dropped| != size {
          return -EIO;
        }
      }
      return 0;
    }

    method Store(ty: DataType, record: Record) returns (ret: int)
      requires Valid() && Initialized()
      requires ty in types ==> |record| == ty.size
      modifies this`queues, rings, set r | r in rings :: r.data
      ensures Valid() && Initialized()
      ensures ty !in types ==> ret == -EINVAL && queues == old(queues)
      ensures ty in types ==> ret == 0
      ensures ty in types ==>
                var i := IndexOf(types, ty);
                queues == old(queues)[i := Push(old(queues)[i], record, cap)]
    {
      var idx := GetTypeIndex(ty);
      if idx < 0 {
        return -EINVAL;
      }
      hide Holds, Registered, QueuesOk, IndexOf;
      ret := MakeRoom(idx, |record|);
      if ret != 0 {
        return;
      }
      var written := Append(idx, record);
      if written != |record| {
        return -EIO;
      }
      return 0;
    }

    /** `buffer` is the size of the caller's buffer, or `None` for a null pointer. */
    method Peek(ty: DataType, buffer: Option<nat>) returns (ret: int, data: Record)
      requires Valid() && Initialized()
      ensures ty !in types ==> ret == -EINVAL && data == []
      ensures ty in types ==>
                var q := queues[IndexOf(types, ty)];
                if q == [] then ret == -EAGAIN && data == []
                else if buffer.None? then ret == ty.size && data == []
                else if buffer.value < ty.size then ret == -ENOMEM && data == []
                else ret == ty.size && data == q[0]
    {
      data := [];
      var idx := GetTypeIndex(ty);
      if idx < 0 {
        return -EINVAL, data;
      }
      var ring := rings[idx];
      SpaceMeansBelowCap(idx);
      if ring.IsEmpty() {
        return -EAGAIN, data;
      }
      if buffer.None? {
        return ty.size, data;
      }
      if ty.size > buffer.value {
        return -ENOMEM, data;
      }
      FlattenHead(queues[idx]);
      data := ring.Peek(ty.size);
      if |data| != ty.size {
        return -EIO, data;
      }
      return |data|, data;
    }

    method Retrieve(ty: DataType, buffer: Option<nat>) returns (ret: int, data: Record)
      requires Valid() && Initialized()
      modifies this`queues, rings
      ensures Valid() && Initialized()
      ensures ty !in types || buffer.None? ==> ret == -EINVAL && data == [] && queues == old(queues)
      ensures ty in types && buffer.Some? ==>
                var i := IndexOf(types, ty);
                var q := old(queues)[i];
                if q == [] then ret == -EAGAIN && data == [] && queues == old(queues)
                else if buffer.value < ty.size then ret == -ENOMEM && data == [] && queues == old(queues)
                else ret == ty.size && data == q[0] && queues == old(queues)[i := q[1..]]
    {
      data := [];
      if buffer.None? {
        return -EINVAL, data;
      }
      var idx := GetTypeIndex(ty);
      if idx < 0 {
        return -EINVAL, data;
      }
      var ring := rings[idx];
      SpaceMeansBelowCap(idx);
      if ring.IsEmpty() {
        return -EAGAIN, data;
      }
      if ty.size > buffer.value {
        return -ENOMEM, data;
      }
      data := TakeOldest(idx);
      if |data| != ty.size {
        return -EIO, data;
      }
      return |data|, data;
    }

    method Count(ty: DataType) returns (ret: int)
      requires Valid() && Initialized()
      ensures ret == if ty in types then |queues[IndexOf(types, ty)]| else -EINVAL
    {
      var idx := GetTypeIndex(ty);
      if idx < 0 {
        return -EINVAL;
      }
      var ring := rings[idx];
      SpaceMeansBelowCap(idx);
      if ring.IsEmpty() {
        return 0;
      }
      var bytesUsed := ring.data.Length - ring.Space();
      DivideBack(|queues[idx]|, ty.size);
      return bytesUsed / ty.size;
    }

    method ResetRing(idx: nat)
      requires Valid() && idx < |types|
      modifies this`queues, rings
      ensures Valid() && queues == old(queues)[idx := []]
    {
      rings[idx].Reset();
      queues := queues[idx := []];
    }

    method Clear() returns (ret: int)
      requires Valid()
      modifies this`queues, rings
      ensures Valid() && registered == old(registered)
      ensures ret == if registered == 0 then -EINVAL else 0
      ensures queues == if registered == 0 then old(queues) else seq(|types|, _ => [])
    {
      if registered == 0 {
        return -EINVAL;
      }
      for idx := 0 to registered
        invariant Valid()
        invariant forall j :: 0 <= j < |queues| ==> queues[j] == if j < idx then [] else old(queues)[j]
      {
        ResetRing(idx);
      }
      return 0;
    }
  }
}
