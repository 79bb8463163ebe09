/**
 * The two byte sources the activity reads from, as objects whose state the
 * reads advance: the cached PCM file opened with `FileInputStream`, and the
 * microphone behind `AudioRecord`. The microphone is given as the chunks it
 * will deliver, one per `read`, before the recording flag is cleared.
 */
module Io {
  import opened Chunking

  /** `FileInputStream` over a file whose content is `content`. */
  class FileInputStream {
    const content: seq<Byte>
    var position: nat

    ghost predicate Valid()
      reads this
    {
      position <= |content|
    }

    constructor (content: seq<Byte>)
      ensures Valid() && this.content == content && position == 0
    {
      this.content := content;
      position := 0;
    }

    /**
     * `read(b, 0, b.size)`: 0 for an empty array, -1 at the end of the file,
     * otherwise the number of bytes copied to the front of `b`, as many as
     * fit and remain; the rest of `b` keeps its old bytes.
     */
    method Read(b: array<Byte>) returns (n: int)
      requires Valid()
      modifies this, b
      ensures Valid()
      ensures b.Length == 0 ==> n == 0 && position == old(position)
      ensures b.Length > 0 && old(position) == |content| ==> n == -1 && position == old(position)
      ensures b.Length > 0 && old(position) < |content| ==>
        && n == (if |content| - old(position) < b.Length then |content| - old(position) else b.Length)
        && position == old(position) + n
      ensures n > 0 ==> b[..] == content[old(position)..position] + old(b[..])[n..]
      ensures n > 0 ==> b[..n] == content[old(position)..position]
      ensures n <= 0 ==> b[..] == old(b[..])
    {
      if b.Length == 0 {
        return 0;
      }
      if position == |content| {
        return -1;
      }
      n := if |content| - position < b.Length then |content| - position else b.Length;
      forall i | 0 <= i < n {
        b[i] := content[position + i];
      }
      position := position + n;
    }
  }

  /**
   * `AudioRecord`: whether the device came up initialised, whether it is
   * recording, the chunks the microphone has still to deliver, and how often
   * it was stopped and released.
   */
  class AudioRecord {
    const initialized: bool
    var recording: bool
    var pending: seq<seq<Byte>>
    var stopCalls: nat
    var releaseCalls: nat

    constructor (initialized: bool, captured: seq<seq<Byte>>)
      ensures this.initialized == initialized && pending == captured
      ensures !recording && stopCalls == 0 && releaseCalls == 0
    {
      this.initialized := initialized;
      recording := false;
      pending := captured;
      stopCalls := 0;
      releaseCalls := 0;
    }

    method StartRecording()
      modifies this`recording
      ensures recording
    {
      recording := true;
    }

    /** `read(b, 0, b.size)`: the next chunk of the microphone, copied to the front of `b`. */
    method Read(b: array<Byte>) returns (n: int)
      requires pending != [] && |pending[0]| <= b.Length
      modifies this`pending, b
      ensures n == |old(pending[0])|
      ensures b[..] == old(pending[0]) + old(b[..])[n..]
      ensures pending == old(pending[1..])
    {
      var chunk := pending[0];
      n := |chunk|;
      forall i | 0 <= i < n {
        b[i] := chunk[i];
      }
      pending := pending[1..];
    }

    method Stop()
      modifies this`recording, this`stopCalls
      ensures !recording && stopCalls == old(stopCalls) + 1
    {
      recording := false;
      stopCalls := stopCalls + 1;
    }

    method Release()
      modifies this`releaseCalls
      ensures releaseCalls == old(releaseCalls) + 1
    {
      releaseCalls := releaseCalls + 1;
    }
  }
}
