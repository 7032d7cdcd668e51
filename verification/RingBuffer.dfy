/** Byte ring buffer with the contract of Zephyr's `ring_buf`: a put or get transfers as many bytes as
    there is room or data for, and both wrap around the end of the array. */
module RingBuffer {
  import opened Common

  class RingBuffer {
    const data: array<Byte>
    var head: nat
    var used: nat
    ghost var contents: seq<Byte>

    ghost predicate Valid()
      reads this, data
    {
      && head < data.Length
      && used <= data.Length
      && |contents| == used
      && forall i :: 0 <= i < used ==> contents[i] == data[Slot(i)]
    }

    /** Where the `i`-th byte after the head lives. */
    function Slot(i: nat): (s: nat)
      requires head < data.Length && i <= data.Length
      reads this
      ensures s < data.Length
    {
      if head + i < data.Length then head + i else head + i - data.Length
    }

    constructor (capacity: nat)
      requires 0 < capacity
      ensures Valid() && fresh(data) && data.Length == capacity && contents == []
    {
      data := new Byte[capacity];
      head, used := 0, 0;
      contents := [];
    }

    function Space(): (n: nat)
      requires Valid()
      reads this, data
      ensures n == data.Length - |contents|
    {
      data.Length - used
    }

    predicate IsEmpty()
      requires Valid()
      reads this, data
      ensures IsEmpty() <==> contents == []
    {
      used == 0
    }

    method Put(bytes: seq<Byte>) returns (written: nat)
      requires Valid()
      modifies this`used, this`contents, data
      ensures Valid()
      ensures written == Min(|bytes|, data.Length - |old(contents)|)
      ensures contents == old(contents) + bytes[..written]
    {
      written := Min(|bytes|, data.Length - used);
      for i := 0 to written
        invariant Valid() && used == old(used) + i
        invariant contents == old(contents) + bytes[..i]
      {
        data[Slot(used)] := bytes[i];
        used := used + 1;
        contents := contents + [bytes[i]];
      }
    }

    /** Copies without consuming. */
    method Peek(n: nat) returns (bytes: seq<Byte>)
      requires Valid()
      ensures bytes == contents[..Min(n, |contents|)]
    {
      bytes := [];
      for i := 0 to Min(n, used)
        invariant bytes == contents[..i]
      {
        bytes := bytes + [data[Slot(i)]];
      }
    }

    method Get(n: nat) returns (bytes: seq<Byte>)
      requires Valid()
      modifies this`head, this`used, this`contents
      ensures Valid()
      ensures bytes == old(contents)[..Min(n, |old(contents)|)]
      ensures contents == old(contents)[Min(n, |old(contents)|)..]
    {
      bytes := Peek(n);
      var taken := |bytes|;
      head := Slot(taken);
      used := used - taken;
      contents := contents[taken..];
    }

    method Reset()
      requires Valid()
      modifies this`head, this`used, this`contents
      ensures Valid() && contents == []
    {
      head, used := 0, 0;
      contents := [];
    }
  }
}
