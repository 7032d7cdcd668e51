/** The byte pipe between the storage module and its consumer, with the contract of Zephyr's `k_pipe`:
    a transfer may move any positive part of what is asked for, and times out when nothing can move. */
module Pipe {
  import opened Common

  class Pipe {
    const capacity: nat
    var contents: seq<Byte>

    constructor (capacity: nat)
      ensures this.capacity == capacity && contents == []
    {
      this.capacity, contents := capacity, [];
    }

    ghost predicate Valid()
      reads this
    {
      |contents| <= capacity
    }

    method Write(bytes: seq<Byte>) returns (ret: int)
      requires Valid() && bytes != []
      modifies this
      ensures Valid()
      ensures |old(contents)| == capacity ==> ret == -EAGAIN && contents == old(contents)
      ensures |old(contents)| < capacity ==>
                1 <= ret <= Min(|bytes|, capacity - |old(contents)|) && contents == old(contents) + bytes[..ret]
    {
      if |contents| == capacity {
        return -EAGAIN;
      }
      var n :| 1 <= n <= |bytes| && n <= capacity - |contents|;
      contents := contents + bytes[..n];
      return n;
    }

    method Read(len: nat) returns (ret: int, bytes: seq<Byte>)
      requires Valid() && len > 0
      modifies this
      ensures Valid()
      ensures old(contents) == [] ==> ret == -EAGAIN && bytes == [] && contents == []
      ensures old(contents) != [] ==>
                && 1 <= ret <= Min(len, |old(contents)|)
                && bytes == old(contents)[..ret] && contents == old(contents)[ret..]
    {
      if contents == [] {
        return -EAGAIN, [];
      }
      var n :| 1 <= n <= len && n <= |contents|;
      bytes := contents[..n];
      contents := contents[n..];
      return n, bytes;
    }
  }

  /** `pipe_write_all`: however the pipe splits the transfer, everything is written if it fits. */
  method PipeWriteAll(pipe: Pipe, bytes: seq<Byte>) returns (ret: int)
    requires pipe.Valid()
    modifies pipe
    ensures pipe.Valid()
    ensures var room := pipe.capacity - |old(pipe.contents)|;
            && pipe.contents == old(pipe.contents) + bytes[..Min(|bytes|, room)]
            && ret == if |bytes| <= room then |bytes| else -EAGAIN
  {
    var written := 0;
    while written < |bytes|
      invariant pipe.Valid() && written <= |bytes|
      invariant pipe.contents == old(pipe.contents) + bytes[..written]
    {
      ret := pipe.Write(bytes[written..]);
      if ret < 0 {
        return;
      }
      if ret == 0 {
        return -EAGAIN;
      }
      assert bytes[..written] + bytes[written..][..ret] == bytes[..written + ret];
      written := written + ret;
    }
    return written;
  }

  /** `pipe_read_exact`: all `len` bytes if the pipe holds them; otherwise what there was is lost. */
  method PipeReadExact(pipe: Pipe, len: nat) returns (ret: int, bytes: seq<Byte>)
    requires pipe.Valid()
    modifies pipe
    ensures pipe.Valid()
    ensures len <= |old(pipe.contents)| ==>
              ret == len && bytes == old(pipe.contents)[..len] && pipe.contents == old(pipe.contents)[len..]
    ensures len > |old(pipe.contents)| ==> ret == -EAGAIN && pipe.contents == []
  {
    bytes := [];
    while |bytes| < len
      invariant pipe.Valid() && |bytes| <= len
      invariant bytes + pipe.contents == old(pipe.contents)
      decreases len - |bytes|
    {
      var part;
      ret, part := pipe.Read(len - |bytes|);
      if ret < 0 {
        return;
      }
      if ret == 0 {
        return -EAGAIN, bytes;
      }
      bytes := bytes + part;
    }
    assert old(pipe.contents)[..len] == bytes;
    return |bytes|, bytes;
  }
}
