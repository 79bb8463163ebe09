/**
 * Byte sequences and the two ways the activity cuts the cached PCM file into
 * pieces: the chunks a sequential `read` loop produces, and the whole-buffer
 * accumulation of the bulk path, which pads the last read with whatever the
 * buffer still held from the read before it.
 */
module Chunking {

  /** A Kotlin `Byte`: a signed 8-bit value. */
  newtype Byte = b: int | -128 <= b < 128

  /** `n` zero bytes: a freshly allocated `ByteArray(n)`. */
  function Zeros(n: nat): seq<Byte>
  {
    seq(n, _ => 0)
  }

  /** The chunks written one after the other. */
  function Flatten(chunks: seq<seq<Byte>>): seq<Byte>
  {
    if chunks == [] then [] else chunks[0] + Flatten(chunks[1..])
  }

  /** The sum of the chunk lengths, as a running `total += n` computes it. */
  function TotalLength(chunks: seq<seq<Byte>>): nat
  {
    if chunks == [] then 0 else |chunks[0]| + TotalLength(chunks[1..])
  }

  /** Every chunk fits in a buffer of `size` bytes. */
  predicate AllFit(chunks: seq<seq<Byte>>, size: nat)
  {
    forall i :: 0 <= i < |chunks| ==> |chunks[i]| <= size
  }

  /** Every chunk fills a buffer of `size` bytes exactly. */
  predicate FullChunks(chunks: seq<seq<Byte>>, size: nat)
  {
    forall i :: 0 <= i < |chunks| ==> |chunks[i]| == size
  }

  /**
   * The chunks have the shape a read loop with a `size`-byte buffer returns:
   * none empty, none longer than the buffer, all but the last full.
   */
  predicate ReadShaped(chunks: seq<seq<Byte>>, size: nat)
  {
    && (forall i :: 0 <= i < |chunks| ==> 0 < |chunks[i]| <= size)
    && (forall i :: 0 <= i < |chunks| - 1 ==> |chunks[i]| == size)
  }

  lemma {:induction false} FlattenLength(chunks: seq<seq<Byte>>)
    ensures |Flatten(chunks)| == TotalLength(chunks)
  {
    if chunks != [] {
      FlattenLength(chunks[1..]);
    }
  }

  /** Chunks that all fill a buffer of `size` bytes put together `|chunks| * size` bytes. */
  lemma {:induction false} FullFlattenLength(chunks: seq<seq<Byte>>, size: nat)
    requires FullChunks(chunks, size)
    ensures |Flatten(chunks)| == |chunks| * size
  {
    if chunks != [] {
      FullFlattenLength(chunks[1..], size);
      assert |chunks| * size == size + (|chunks| - 1) * size;
    }
  }

  /**
   * The successive results of `read(buffer, 0, size)` on a stream holding
   * `data`: full buffers of `size` bytes, then whatever is left.
   */
  function Chunks(data: seq<Byte>, size: nat): seq<seq<Byte>>
    requires size > 0
    decreases |data|
  {
    if |data| == 0 then []
    else if |data| <= size then [data]
    else [data[..size]] + Chunks(data[size..], size)
  }

  /**
   * Every read returns between 1 and `size` bytes, every read but the last
   * fills the buffer, and the reads put together give back the file.
   */
  lemma {:induction false} ChunksShape(data: seq<Byte>, size: nat)
    requires size > 0
    ensures var r := Chunks(data, size);
      && (forall i :: 0 <= i < |r| ==> 0 < |r[i]| <= size)
      && (forall i :: 0 <= i < |r| - 1 ==> |r[i]| == size)
      && Flatten(r) == data
      && (r == [] <==> data == [])
    decreases |data|
  {
    var r := Chunks(data, size);
    if |data| > size {
      var rest := Chunks(data[size..], size);
      ChunksShape(data[size..], size);
      assert r[1..] == rest;
      forall i | 1 <= i < |r|
        ensures r[i] == rest[i - 1]
      {
      }
      assert data == data[..size] + data[size..];
    } else if |data| > 0 {
      assert r[1..] == [];
    }
  }

  /** A read returns the first chunk of what is left; the rest is chunked the same way. */
  lemma ChunksFirst(rest: seq<Byte>, size: nat, n: nat)
    requires size > 0 && rest != []
    requires n == if |rest| < size then |rest| else size
    ensures Chunks(rest, size) == [rest[..n]] + Chunks(rest[n..], size)
  {
    if |rest| <= size {
      assert rest[n..] == [];
      assert rest[..n] == rest;
    }
  }

  /**
   * Recorded chunks are read back from the file as the very same chunks
   * exactly when they have the shape a read loop returns: a short chunk
   * before the last, or an empty one, merges with its neighbours.
   */
  lemma RereadIff(captured: seq<seq<Byte>>, size: nat)
    requires size > 0
    ensures Chunks(Flatten(captured), size) == captured <==> ReadShaped(captured, size)
  {
    ChunksShape(Flatten(captured), size);
    if ReadShaped(captured, size) {
      ShapedReread(captured, size);
    }
  }

  lemma {:induction false} ShapedReread(captured: seq<seq<Byte>>, size: nat)
    requires size > 0 && ReadShaped(captured, size)
    ensures Chunks(Flatten(captured), size) == captured
  {
    if captured != [] {
      var data := Flatten(captured);
      var later := captured[1..];
      assert ReadShaped(later, size) by {
        forall i | 0 <= i < |later| ensures 0 < |later[i]| <= size && (i < |later| - 1 ==> |later[i]| == size) {
          assert later[i] == captured[i + 1];
        }
      }
      ShapedReread(later, size);
      assert data == captured[0] + Flatten(later);
      if later == [] {
        assert data == captured[0];
      } else {
        assert |captured[0]| == size;
        assert Flatten(later) == later[0] + Flatten(later[1..]);
        assert |later[0]| > 0;
        assert data[..size] == captured[0];
        assert data[size..] == Flatten(later);
      }
      assert captured == [captured[0]] + later;
    }
  }

  /** One buffer more is `size` bytes more. */
  lemma MultipleStep(q: nat, size: nat)
    ensures q > 0 ==> q * size == (q - 1) * size + size
    ensures q == 1 ==> (q - 1) * size == 0
    ensures q >= 1 ==> q * size >= size
    ensures q >= 2 ==> (q - 1) * size >= size
  {
  }

  /** Euclidean division of a length by a buffer size. */
  lemma Division(n: nat, size: nat)
    requires size > 0
    ensures n == (n / size) * size + n % size && 0 <= n % size < size
  {
  }

  /** The number of chunks is the length divided by `size`, rounded up. */
  lemma {:induction false} ChunkCount(data: seq<Byte>, size: nat, q: nat, rem: nat)
    requires size > 0 && rem < size && |data| == q * size + rem
    ensures |Chunks(data, size)| == q + (if rem == 0 then 0 else 1)
    ensures rem != 0 ==> LastChunkLength(data, size) == rem
    decreases q
  {
    if q > 0 {
      MultipleStep(q, size);
      if |data| > size {
        ChunkCount(data[size..], size, q - 1, rem);
      }
    }
  }

  /**
   * The bulk loop read directly off the file: each read fills the front of
   * the buffer with up to `size` bytes of `data`, and the whole buffer is
   * appended.
   */
  function BulkBytes(data: seq<Byte>, size: nat, buffer: seq<Byte>): seq<Byte>
    requires size > 0 && |buffer| == size
    decreases |data|
  {
    if |data| == 0 then []
    else
      var n := if |data| < size then |data| else size;
      var next := data[..n] + buffer[n..];
      next + BulkBytes(data[n..], size, next)
  }

  /** Every read appends one whole buffer. */
  lemma {:induction false} BulkBytesLength(data: seq<Byte>, size: nat, buffer: seq<Byte>)
    requires size > 0 && |buffer| == size
    ensures |BulkBytes(data, size, buffer)| == |Chunks(data, size)| * size
    decreases |data|
  {
    if |data| > 0 {
      var n := if |data| < size then |data| else size;
      var next := data[..n] + buffer[n..];
      BulkBytesLength(data[n..], size, next);
      ChunksFirst(data, size, n);
      MultipleStep(|Chunks(data, size)|, size);
    }
  }

  /** The file's bytes come out first, in order: each buffer but the last is full. */
  lemma {:induction false} BulkBytesPrefix(data: seq<Byte>, size: nat, buffer: seq<Byte>)
    requires size > 0 && |buffer| == size
    ensures |data| <= |BulkBytes(data, size, buffer)|
    ensures BulkBytes(data, size, buffer)[..|data|] == data
    decreases |data|
  {
    if |data| > 0 {
      var n := if |data| < size then |data| else size;
      var next := data[..n] + buffer[n..];
      BulkBytesPrefix(data[n..], size, next);
      var tail := BulkBytes(data[n..], size, next);
      if |data| <= size {
        assert (next + tail)[..|data|] == data;
      } else {
        assert next == data[..size];
        assert (next + tail)[..|data|] == next + tail[..|data| - size];
        assert data == data[..size] + data[size..];
      }
    }
  }

  /**
   * The bulk loop as it runs: `built` is what has been accumulated so far,
   * `data` what the file still holds and `buffer` the array's content.
   */
  function BulkLoop(built: seq<Byte>, data: seq<Byte>, size: nat, buffer: seq<Byte>): (r: seq<Byte>)
    requires size > 0 && |buffer| == size
    decreases |data|
  {
    if |data| == 0 then built
    else
      var n := if |data| < size then |data| else size;
      var next := data[..n] + buffer[n..];
      BulkLoop(built + next, data[n..], size, next)
  }

  /** Running the loop appends the bulk bytes of what is left to what was built. */
  lemma {:induction false} BulkLoopAppends(built: seq<Byte>, data: seq<Byte>, size: nat, buffer: seq<Byte>)
    requires size > 0 && |buffer| == size
    ensures BulkLoop(built, data, size, buffer) == built + BulkBytes(data, size, buffer)
    decreases |data|
  {
    if |data| > 0 {
      var n := if |data| < size then |data| else size;
      var next := data[..n] + buffer[n..];
      BulkLoopAppends(built + next, data[n..], size, next);
      assert built + next + BulkBytes(data[n..], size, next) == built + (next + BulkBytes(data[n..], size, next));
    }
  }

  /** The bulk payload built from `data` with a zero-filled buffer of `size` bytes. */
  function BulkPayload(data: seq<Byte>, size: nat): seq<Byte>
    requires size > 0
  {
    BulkBytes(data, size, Zeros(size))
  }

  /** The bulk loop, started with nothing built and a zero-filled buffer, builds the bulk payload. */
  lemma BulkLoopBuildsPayload(data: seq<Byte>, size: nat)
    requires size > 0
    ensures BulkLoop([], data, size, Zeros(size)) == BulkPayload(data, size)
  {
    BulkLoopAppends([], data, size, Zeros(size));
    assert [] + BulkBytes(data, size, Zeros(size)) == BulkBytes(data, size, Zeros(size));
  }

  /**
   * The bulk payload is `|Chunks|` whole buffers long, so at least as long as
   * the file, with the file's bytes at its front; nothing is sent for an
   * empty file.
   */
  lemma BulkPayloadShape(data: seq<Byte>, size: nat)
    requires size > 0
    ensures |BulkPayload(data, size)| == |Chunks(data, size)| * size
    ensures |data| <= |BulkPayload(data, size)|
    ensures BulkPayload(data, size)[..|data|] == data
    ensures data == [] <==> BulkPayload(data, size) == []
  {
    BulkBytesLength(data, size, Zeros(size));
    BulkBytesPrefix(data, size, Zeros(size));
    ChunksShape(data, size);
    if data != [] {
      MultipleStep(|Chunks(data, size)|, size);
    }
  }

  /** Recorded chunks that each filled the buffer are uploaded in bulk without padding. */
  lemma FullCapturesSentExactly(captured: seq<seq<Byte>>, size: nat)
    requires size > 0 && FullChunks(captured, size)
    ensures BulkPayload(Flatten(captured), size) == Flatten(captured)
  {
    RereadIff(captured, size);
    FullFlattenLength(captured, size);
    BulkPayloadShape(Flatten(captured), size);
  }

  /**
   * The payload holds no padding exactly when the file length is a multiple
   * of the buffer size.
   */
  lemma BulkPayloadExactIff(data: seq<Byte>, size: nat)
    requires size > 0
    ensures BulkPayload(data, size) == data <==> |data| % size == 0
  {
    var q, rem := |data| / size, |data| % size;
    Division(|data|, size);
    ChunkCount(data, size, q, rem);
    BulkPayloadShape(data, size);
    var payload := BulkPayload(data, size);
    if rem == 0 {
      assert |payload| == |data|;
      assert payload == payload[..|data|];
    } else {
      MultipleStep(q + 1, size);
      assert |payload| > |data|;
    }
  }

  /** The length of the last read of a file holding non-empty `data`. */
  function LastChunkLength(data: seq<Byte>, size: nat): (r: nat)
    requires size > 0 && data != []
    ensures 0 < r <= size
    decreases |data|
  {
    if |data| <= size then |data| else LastChunkLength(data[size..], size)
  }

  /** `LastChunkLength` is the length of the last of the reads `Chunks` lists. */
  lemma {:induction false} LastChunkIsLast(data: seq<Byte>, size: nat)
    requires size > 0 && data != []
    ensures var c := Chunks(data, size);
      |c| > 0 && LastChunkLength(data, size) == |c[|c| - 1]|
    decreases |data|
  {
    if |data| > size {
      var rest := data[size..];
      LastChunkIsLast(rest, size);
      var c := Chunks(data, size);
      assert c == [data[..size]] + Chunks(rest, size);
      assert c[|c| - 1] == Chunks(rest, size)[|Chunks(rest, size)| - 1];
    }
  }

  /**
   * The bytes behind the file's end in the payload of a read loop started
   * with `buffer`: the part of the read before the last one that the last
   * read did not overwrite, or of `buffer` when there was no earlier read.
   */
  lemma {:induction false} BulkBytesTail(data: seq<Byte>, size: nat, buffer: seq<Byte>)
    requires |buffer| == size && size > 0 && data != []
    ensures var payload := BulkBytes(data, size, buffer);
      |data| <= |payload| &&
      payload[|data|..] == if |data| <= size then buffer[|data|..]
                           else data[|data| - size .. |data| - LastChunkLength(data, size)]
    decreases |data|
  {
    if |data| <= size {
      assert data[|data|..] == [];
      var payload := data + buffer[|data|..];
      assert BulkBytes(data, size, buffer) == payload;
      assert payload[|data|..] == buffer[|data|..];
    } else {
      var rest := data[size..];
      var next := data[..size] + buffer[size..];
      assert next == data[..size] by {
        assert buffer[size..] == [];
      }
      var tail := BulkBytes(rest, size, next);
      assert BulkBytes(data, size, buffer) == next + tail;
      BulkBytesTail(rest, size, next);
      TailShift(data, size, next, rest, tail, LastChunkLength(rest, size));
    }
  }

  /** The step of `BulkBytesTail`: a full first buffer moves the tail's slice `size` bytes on. */
  lemma TailShift(data: seq<Byte>, size: nat, next: seq<Byte>, rest: seq<Byte>, tail: seq<Byte>, last: nat)
    requires 0 < last <= size < |data| && next == data[..size] && rest == data[size..]
    requires |rest| <= size ==> |rest| == last
    requires |rest| <= |tail|
    requires tail[|rest|..] == if |rest| <= size then next[|rest|..] else rest[|rest| - size .. |rest| - last]
    ensures |data| <= |next + tail|
    ensures (next + tail)[|data|..] == data[|data| - size .. |data| - last]
  {
    assert (next + tail)[|data|..] == tail[|rest|..];
  }

  /**
   * When the file length is not a multiple of the buffer size, the payload
   * ends with bytes left over from the previous read: zeros when the file is
   * shorter than one buffer, otherwise bytes of the file that were already
   * sent once.
   */
  lemma BulkPayloadTail(data: seq<Byte>, size: nat)
    requires size > 0 && |data| % size != 0
    ensures |data| < |BulkPayload(data, size)|
    ensures |data| < size ==> BulkPayload(data, size)[|data|..] == Zeros(size - |data|)
    ensures size < |data| ==>
      BulkPayload(data, size)[|data|..] == data[|data| - size .. (|data| / size) * size]
  {
    var q, rem := |data| / size, |data| % size;
    Division(|data|, size);
    BulkPayloadTailSplit(data, size, q, rem);
  }

  lemma BulkPayloadTailSplit(data: seq<Byte>, size: nat, q: nat, rem: nat)
    requires size > 0 && 0 < rem < size && |data| == q * size + rem
    ensures |data| < |BulkPayload(data, size)|
    ensures |data| < size ==> BulkPayload(data, size)[|data|..] == Zeros(size - |data|)
    ensures size < |data| ==> BulkPayload(data, size)[|data|..] == data[|data| - size .. |data| - rem]
  {
    ChunkCount(data, size, q, rem);
    BulkBytesTail(data, size, Zeros(size));
  }
}
