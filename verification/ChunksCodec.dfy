/** Cutting an input stream into chunks (`ChunksCodec` of crates/ic-oss/src/bucket.rs:964-989, driven
    by tokio's `FramedRead`). The reads of the stream may return any number of bytes each. */
module ChunksCodec {
  import opened FileChunks
  import opened Manifests

  /** The read buffer of a `FramedRead`. */
  class Buffer {
    var data: Bytes

    constructor ()
      ensures data == []
    {
      data := [];
    }

    /** A full chunk, if the buffer holds one. */
    method Decode() returns (frame: Option<Bytes>)
      modifies this
      ensures frame.Some? <==> |old(data)| >= CHUNK_SIZE
      ensures frame.Some? ==> |frame.value| == CHUNK_SIZE && frame.value + data == old(data)
      ensures frame.None? ==> data == old(data)
    {
      if |data| >= CHUNK_SIZE {
        frame := Some(data[..CHUNK_SIZE]);
        data := data[CHUNK_SIZE..];
      } else {
        frame := None;
      }
    }

    /** At the end of the stream: whatever is left. */
    method DecodeEof() returns (frame: Option<Bytes>)
      modifies this
      ensures frame == if old(data) == [] then None else Some(old(data))
      ensures data == []
    {
      if data == [] {
        frame := None;
      } else {
        frame := Some(data);
        data := [];
      }
    }
  }

  /** All frames but the last are full and none is empty: what the codec yields. */
  ghost predicate AreFrames(frames: seq<Bytes>) {
    && (forall i :: 0 <= i < |frames| ==> 0 < |frames[i]| <= CHUNK_SIZE)
    && (forall i :: 0 <= i < |frames| - 1 ==> |frames[i]| == CHUNK_SIZE)
  }

  lemma {:induction false} FullLength(frames: seq<Bytes>)
    requires forall i :: 0 <= i < |frames| ==> |frames[i]| == CHUNK_SIZE
    ensures |Concat(frames)| == |frames| * CHUNK_SIZE
  {
    if frames != [] {
      FullLength(frames[..|frames| - 1]);
    }
  }

  lemma {:induction false} FrameInConcat(frames: seq<Bytes>, k: nat)
    requires k < |frames|
    ensures |Concat(frames[..k])| + |frames[k]| <= |Concat(frames)|
    ensures Concat(frames)[|Concat(frames[..k])|..|Concat(frames[..k])| + |frames[k]|] == frames[k]
  {
    var front := frames[..|frames| - 1];
    if k == |frames| - 1 {
      assert frames[..k] == front;
    } else {
      FrameInConcat(front, k);
      assert front[..k] == frames[..k];
    }
  }

  /** Frames of that shape are the chunks of the bytes they carry: there is only one way to cut a
      file like that. */
  lemma {:induction false} FramesAreChunks(frames: seq<Bytes>)
    requires AreFrames(frames)
    ensures frames == ChunksOf(Concat(frames))
  {
    var content := Concat(frames);
    if frames != [] {
      var front := frames[..|frames| - 1];
      FullLength(front);
    }
    assert |frames| == ChunkCount(|content|);
    forall k | 0 <= k < |frames| ensures frames[k] == ChunkAt(content, k) {
      FullLength(frames[..k]);
      FrameInConcat(frames, k);
    }
  }

  lemma ConcatAppend(chunks: seq<Bytes>, chunk: Bytes)
    ensures Concat(chunks + [chunk]) == Concat(chunks) + chunk
  {
    assert (chunks + [chunk])[..|chunks|] == chunks;
  }

  ghost predicate AllFull(frames: seq<Bytes>) {
    forall k :: 0 <= k < |frames| ==> |frames[k]| == CHUNK_SIZE
  }

  /** The full chunks that the buffer holds after a read. */
  method DrainBuffer(buffer: Buffer, earlier: seq<Bytes>) returns (frames: seq<Bytes>)
    requires AllFull(earlier)
    modifies buffer
    ensures AllFull(frames) && |buffer.data| < CHUNK_SIZE
    ensures Concat(frames) + buffer.data == Concat(earlier) + old(buffer.data)
  {
    frames := earlier;
    while true
      invariant AllFull(frames)
      invariant Concat(frames) + buffer.data == Concat(earlier) + old(buffer.data)
      decreases |buffer.data|
    {
      ghost var held := buffer.data;
      var frame := buffer.Decode();
      match frame {
        case None => return;
        case Some(chunk) =>
          assert Concat(frames) + held == Concat(frames) + chunk + buffer.data;
          ConcatAppend(frames, chunk);
          frames := frames + [chunk];
      }
    }
  }

  /** However the stream hands out its bytes, the frames are exactly the chunks of the file, in
      order. */
  method ReadFrames(pieces: seq<Bytes>) returns (frames: seq<Bytes>)
    ensures frames == ChunksOf(Concat(pieces))
  {
    var buffer := new Buffer();
    frames := [];
    for i := 0 to |pieces|
      invariant AllFull(frames)
      invariant |buffer.data| < CHUNK_SIZE
      invariant Concat(frames) + buffer.data == Concat(pieces[..i])
    {
      assert Concat(frames) + (buffer.data + pieces[i]) == Concat(pieces[..i]) + pieces[i];
      assert pieces[..i + 1][..i] == pieces[..i];
      buffer.data := buffer.data + pieces[i];
      frames := DrainBuffer(buffer, frames);
    }
    assert pieces[..|pieces|] == pieces;
    var rest := buffer.DecodeEof();
    match rest {
      case None =>
        assert Concat(frames) + [] == Concat(frames);
      case Some(chunk) =>
        ConcatAppend(frames, chunk);
        frames := frames + [chunk];
    }
    FramesAreChunks(frames);
  }
}
