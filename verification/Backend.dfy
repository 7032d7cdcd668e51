/** The backend as the storage module sees it: the function table of storage_backend.h, with the
    behaviour that both implementations are proved to have. Types are named by their position in the
    section of registered types. */
module Backend {
  import opened Common
  import opened BoundedFifo

  class Backend {
    const types: seq<DataType>
    const cap: nat
    var queues: Queues

    ghost predicate Valid()
      reads this
    {
      0 < cap && QueuesOk(types, cap, queues)
    }

    constructor (types: seq<DataType>, cap: nat, queues: Queues)
      requires 0 < cap && QueuesOk(types, cap, queues)
      ensures Valid() && this.types == types && this.cap == cap && this.queues == queues
    {
      this.types, this.cap, this.queues := types, cap, queues;
    }

    method Store(t: nat, data: Record) returns (ret: int)
      requires Valid() && t < |types| && |data| == types[t].size
      modifies this
      ensures Valid()
      ensures (queues, Reply(ret, [])) == Apply(types, cap, old(queues), BoundedFifo.Store(t, data))
    {
      queues := queues[t := Push(queues[t], data, cap)];
      ret := 0;
    }

    /** A peek with a null buffer, which only reports the size. */
    method PeekSize(t: nat) returns (ret: int)
      requires Valid() && t < |types|
      ensures (queues, Reply(ret, [])) == Apply(types, cap, queues, BoundedFifo.PeekSize(t))
    {
      ret := if queues[t] == [] then -EAGAIN else types[t].size;
    }

    method Retrieve(t: nat, buffer: nat) returns (ret: int, data: Record)
      requires Valid() && t < |types| && buffer >= types[t].size
      modifies this
      ensures Valid()
      ensures (queues, Reply(ret, data)) == Apply(types, cap, old(queues), BoundedFifo.Retrieve(t))
    {
      if queues[t] == [] {
        return -EAGAIN, [];
      }
      data := queues[t][0];
      ret := |data|;
      queues := queues[t := queues[t][1..]];
    }

    method Count(t: nat) returns (ret: int)
      requires Valid() && t < |types|
      ensures (queues, Reply(ret, [])) == Apply(types, cap, queues, BoundedFifo.Count(t))
    {
      ret := |queues[t]|;
    }

    method Clear() returns (ret: int)
      requires Valid()
      modifies this
      ensures Valid()
      ensures (queues, Reply(ret, [])) == Apply(types, cap, old(queues), BoundedFifo.Clear)
    {
      queues := seq(|types|, _ => []);
      ret := 0;
    }
  }
}
