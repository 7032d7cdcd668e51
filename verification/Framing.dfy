/** The frames in which records travel through the pipe: `struct storage_pipe_header` and the record. */
module Framing {
  import opened Common

  /** `sizeof(struct storage_pipe_header)`: a type byte, one byte of padding, a 16-bit length. */
  const HEADER_SIZE := 4

  /** A record as the consumer sees it: the type byte of its header, and its bytes. */
  datatype Frame = Frame(ty: Byte, data: Record)

  /** The records of the frames whose type byte is `ty`, in order. */
  function DataUnder(frames: seq<Frame>, ty: nat): seq<Record> {
    if frames == [] then []
    else
      var last := frames[|frames| - 1];
      DataUnder(frames[..|frames| - 1], ty) + if last.ty == ty then [last.data] else []
  }

  lemma {:induction false} DataUnderConcat(a: seq<Frame>, b: seq<Frame>, ty: nat)
    ensures DataUnder(a + b, ty) == DataUnder(a, ty) + DataUnder(b, ty)
  {
    if b == [] {
      assert a + b == a;
    } else {
      DataUnderConcat(a, b[..|b| - 1], ty);
      assert (a + b)[..|a + b| - 1] == a + b[..|b| - 1];
    }
  }

  ghost predicate FrameOk(f: Frame) {
    |f.data| <= UINT16_MAX
  }

  /** The bytes of a frame; the padding byte is whatever the writer's stack held. */
  function Encode(f: Frame, padding: Byte): (bytes: seq<Byte>)
    requires FrameOk(f)
    ensures |bytes| == HEADER_SIZE + |f.data|
  {
    [f.ty, padding, |f.data| % 256, |f.data| / 256] + f.data
  }

  function DataSize(header: seq<Byte>): nat
    requires |header| == HEADER_SIZE
  {
    header[2] as int + 256 * header[3] as int
  }

  /** `bytes` is a concatenation of encodings of `frames`, with any padding. */
  ghost predicate Encodes(bytes: seq<Byte>, frames: seq<Frame>) {
    if frames == [] then bytes == []
    else
      var n := HEADER_SIZE + |frames[0].data|;
      && n <= |bytes|
      && bytes[0] == frames[0].ty
      && DataSize(bytes[..HEADER_SIZE]) == |frames[0].data|
      && bytes[HEADER_SIZE..n] == frames[0].data
      && Encodes(bytes[n..], frames[1..])
  }

  function TotalSize(frames: seq<Frame>): nat {
    if frames == [] then 0 else HEADER_SIZE + |frames[0].data| + TotalSize(frames[1..])
  }

  lemma EncodesOne(f: Frame, padding: Byte)
    requires FrameOk(f)
    ensures Encodes(Encode(f, padding), [f])
  {
    var bytes := Encode(f, padding);
    assert bytes[..HEADER_SIZE] == [f.ty, padding, |f.data| % 256, |f.data| / 256];
    assert bytes[HEADER_SIZE..] == f.data && [f][1..] == [];
    assert bytes[HEADER_SIZE + |f.data|..] == [];
  }

  /** Writing one more frame behind what is in the pipe. */
  lemma {:induction false} EncodesAppend(bytes: seq<Byte>, frames: seq<Frame>, f: Frame, padding: Byte)
    requires Encodes(bytes, frames) && FrameOk(f)
    ensures Encodes(bytes + Encode(f, padding), frames + [f])
  {
    hide Encode, DataSize;
    var more := Encode(f, padding);
    if frames == [] {
      EncodesOne(f, padding);
      assert bytes + more == more && [] + [f] == [f];
    } else {
      var n, whole, list := HEADER_SIZE + |frames[0].data|, bytes + more, frames + [f];
      EncodesAppend(bytes[n..], frames[1..], f, padding);
      assert whole[n..] == bytes[n..] + more;
      assert list[0] == frames[0] && list[1..] == frames[1..] + [f];
      assert whole[..HEADER_SIZE] == bytes[..HEADER_SIZE] && whole[0] == bytes[0];
      assert whole[HEADER_SIZE..n] == bytes[HEADER_SIZE..n];
    }
  }

  /** The same bytes never encode two different lists of frames. */
  lemma {:induction false} EncodesUnique(bytes: seq<Byte>, a: seq<Frame>, b: seq<Frame>)
    requires Encodes(bytes, a) && Encodes(bytes, b)
    ensures a == b
  {
    if a != [] && b != [] {
      var n := HEADER_SIZE + |a[0].data|;
      EncodesUnique(bytes[n..], a[1..], b[1..]);
      assert a == [a[0]] + a[1..] && b == [b[0]] + b[1..];
    }
  }

  lemma {:induction false} TotalSizeAppend(a: seq<Frame>, b: seq<Frame>)
    ensures TotalSize(a + b) == TotalSize(a) + TotalSize(b)
  {
    if a == [] {
      assert [] + b == b;
    } else {
      TotalSizeAppend(a[1..], b);
      assert (a + b)[1..] == a[1..] + b;
    }
  }
}
