/** Frames through the pipe: the reader of the batch interface, and the round trip. */
module FramePipe {
  import opened Common
  import opened Framing
  import opened Pipe

  /** Writes one frame as `populate_pipe` does. The padding byte is not initialised. */
  method WriteFrame(pipe: Pipe, f: Frame, ghost frames: seq<Frame>) returns (ret: int)
    requires pipe.Valid() && FrameOk(f) && Encodes(pipe.contents, frames)
    requires |pipe.contents| + HEADER_SIZE + |f.data| <= pipe.capacity
    modifies pipe
    ensures pipe.Valid() && ret == HEADER_SIZE + |f.data|
    ensures Encodes(pipe.contents, frames + [f])
    ensures |pipe.contents| == |old(pipe.contents)| + HEADER_SIZE + |f.data|
  {
    var padding: Byte := *;
    EncodesAppend(pipe.contents, frames, f, padding);
    var bytes := Encode(f, padding);
    ret := PipeWriteAll(pipe, bytes);
    assert bytes[..|bytes|] == bytes;
  }

  /** `storage_batch_read`: the next frame, or -EAGAIN at the end. `maxData` is the size of the data
      member of the caller's item; `hasItem` says whether the caller passed one. */
  method ReadFrame(pipe: Pipe, maxData: nat, hasItem: bool, ghost frames: seq<Frame>)
    returns (ret: int, item: Frame)
    requires pipe.Valid() && Encodes(pipe.contents, frames)
    requires forall i :: 0 <= i < |frames| ==> |frames[i].data| <= maxData
    modifies pipe
    ensures pipe.Valid()
    ensures !hasItem ==> ret == -EINVAL && pipe.contents == old(pipe.contents)
    ensures hasItem && frames == [] ==> ret == -EAGAIN && pipe.contents == []
    ensures hasItem && frames != [] ==> ret == 0 && item == frames[0] && Encodes(pipe.contents, frames[1..])
  {
    item := Frame(0, []);
    if !hasItem {
      return -EINVAL, item;
    }
    var header;
    ret, header := PipeReadExact(pipe, HEADER_SIZE);
    if ret < 0 {
      return;
    }
    if ret != HEADER_SIZE {
      return -EIO, item;
    }
    var dataSize := DataSize(header);
    if dataSize > maxData {
      return -EMSGSIZE, item;
    }
    ghost var n := HEADER_SIZE + |frames[0].data|;
    assert old(pipe.contents)[HEADER_SIZE..][..dataSize] == old(pipe.contents)[HEADER_SIZE..n];
    assert old(pipe.contents)[HEADER_SIZE..][dataSize..] == old(pipe.contents)[n..];
    var data;
    ret, data := PipeReadExact(pipe, dataSize);
    if ret < 0 {
      return;
    }
    if ret != dataSize {
      return -EIO, item;
    }
    return 0, Frame(header[0], data);
  }

  method WriteFrames(pipe: Pipe, frames: seq<Frame>)
    requires pipe.Valid() && pipe.contents == [] && TotalSize(frames) <= pipe.capacity
    requires forall i :: 0 <= i < |frames| ==> FrameOk(frames[i])
    modifies pipe
    ensures pipe.Valid() && Encodes(pipe.contents, frames)
  {
    for i := 0 to |frames|
      invariant pipe.Valid()
      invariant Encodes(pipe.contents, frames[..i]) && |pipe.contents| == TotalSize(frames[..i])
    {
      TotalSizeAppend(frames[..i], frames[i..]);
      assert frames[..i] + frames[i..] == frames;
      TotalSizeAppend(frames[..i], [frames[i]]);
      assert frames[..i] + [frames[i]] == frames[..i + 1];
      var ret := WriteFrame(pipe, frames[i], frames[..i]);
    }
    assert frames[..|frames|] == frames;
  }

  method ReadFrames(pipe: Pipe, maxData: nat, ghost frames: seq<Frame>) returns (out: seq<Frame>, last: int)
    requires pipe.Valid() && Encodes(pipe.contents, frames)
    requires forall i :: 0 <= i < |frames| ==> |frames[i].data| <= maxData
    modifies pipe
    ensures pipe.Valid() && pipe.contents == []
    ensures out == frames && last == -EAGAIN
  {
    out, last := [], 0;
    while last == 0
      invariant pipe.Valid()
      invariant |out| <= |frames| && out == frames[..|out|] && Encodes(pipe.contents, frames[|out|..])
      invariant last == 0 || (last == -EAGAIN && |out| == |frames|)
      decreases |frames| - |out|, last == 0
    {
      assert |out| < |frames| ==> frames[|out|..][1..] == frames[|out| + 1..];
      var item;
      last, item := ReadFrame(pipe, maxData, true, frames[|out|..]);
      if last == 0 {
        out := out + [item];
      }
    }
  }

  /** Any list of frames that fits the pipe comes out of the reader as it went in, followed by -EAGAIN,
      however the pipe splits the transfers. */
  method RoundTrip(frames: seq<Frame>, capacity: nat, maxData: nat) returns (out: seq<Frame>, last: int)
    requires forall i :: 0 <= i < |frames| ==> FrameOk(frames[i]) && |frames[i].data| <= maxData
    requires TotalSize(frames) <= capacity
    ensures out == frames && last == -EAGAIN
  {
    var pipe := new Pipe(capacity);
    WriteFrames(pipe, frames);
    out, last := ReadFrames(pipe, maxData, frames);
  }
}
