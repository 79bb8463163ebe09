/**
 * The Dialogflow CX request messages the activity builds, as values, and the
 * two framings of the cached recording: a streaming request list (one header,
 * then one audio-only request per read) and a single unary request carrying
 * the bulk payload. Protobuf fields left unset read as their defaults: an
 * empty string, an empty byte string, or an absent message (`None`).
 */
module Requests {
  import opened Chunking

  datatype Option<+T> = None | Some(value: T)

  datatype AudioEncoding = AudioEncodingLinear16

  datatype InputAudioConfig = InputAudioConfig(audioEncoding: AudioEncoding, sampleRateHertz: int)

  datatype AudioInput = AudioInput(config: Option<InputAudioConfig>, audio: seq<Byte>)

  datatype QueryInput = QueryInput(audio: AudioInput, languageCode: string)

  datatype StreamingDetectIntentRequest = StreamingDetectIntentRequest(session: string, queryInput: QueryInput)

  datatype DetectIntentRequest = DetectIntentRequest(session: string, queryInput: QueryInput)

  /** What one call of `sendAudioToBot` hands to the RPC stub: never a mix of the two kinds. */
  datatype Transmission =
    | Streaming(requests: seq<StreamingDetectIntentRequest>)
    | Unary(request: DetectIntentRequest)

  /** SAMPLE_RATE: the capture rate, also announced in every audio config. */
  const SampleRate: int := 44100

  const LanguageCode: string := "en-US"

  /** 16-bit linear PCM at 44100 Hz. */
  const Linear16Config: InputAudioConfig := InputAudioConfig(AudioEncodingLinear16, SampleRate)

  /** The first streaming request: session, audio config and language, no audio. */
  function StreamingHeader(session: string): StreamingDetectIntentRequest
  {
    StreamingDetectIntentRequest(session, QueryInput(AudioInput(Some(Linear16Config), []), LanguageCode))
  }

  /** A later streaming request: audio and language only. */
  function StreamingAudio(audio: seq<Byte>): StreamingDetectIntentRequest
  {
    StreamingDetectIntentRequest("", QueryInput(AudioInput(None, audio), LanguageCode))
  }

  /** One audio-only request per chunk, in chunk order. */
  function AudioRequests(chunks: seq<seq<Byte>>): seq<StreamingDetectIntentRequest>
  {
    if chunks == [] then [] else [StreamingAudio(chunks[0])] + AudioRequests(chunks[1..])
  }

  /** The request list of the streaming branch for a file holding `data`, read `bufferSize` bytes at a time. */
  function StreamingRequests(session: string, data: seq<Byte>, bufferSize: nat): seq<StreamingDetectIntentRequest>
    requires bufferSize > 0
  {
    [StreamingHeader(session)] + AudioRequests(Chunks(data, bufferSize))
  }

  /** The audio carried by each request, in list order. */
  function AudioOf(requests: seq<StreamingDetectIntentRequest>): seq<seq<Byte>>
  {
    if requests == [] then [] else [requests[0].queryInput.audio.audio] + AudioOf(requests[1..])
  }

  /** The one request of the bulk branch, carrying `payload` as its audio. */
  function UnaryRequest(session: string, payload: seq<Byte>): DetectIntentRequest
  {
    DetectIntentRequest(session, QueryInput(AudioInput(Some(Linear16Config), payload), LanguageCode))
  }

  /** The request of the bulk branch for a file holding `data`. */
  function BulkRequest(session: string, data: seq<Byte>, bufferSize: nat): DetectIntentRequest
    requires bufferSize > 0
  {
    UnaryRequest(session, BulkPayload(data, bufferSize))
  }

  /** What `sendAudioToBot(mode)` hands to the stub. */
  function Framed(mode: bool, session: string, data: seq<Byte>, bufferSize: nat): (t: Transmission)
    requires bufferSize > 0
    ensures mode <==> t.Streaming?
  {
    if mode then Streaming(StreamingRequests(session, data, bufferSize))
    else Unary(BulkRequest(session, data, bufferSize))
  }

  lemma {:induction false} AudioRequestsShape(chunks: seq<seq<Byte>>)
    ensures |AudioRequests(chunks)| == |chunks|
    ensures forall i :: 0 <= i < |chunks| ==> AudioRequests(chunks)[i] == StreamingAudio(chunks[i])
    ensures AudioOf(AudioRequests(chunks)) == chunks
  {
    if chunks != [] {
      AudioRequestsShape(chunks[1..]);
      var rs := AudioRequests(chunks);
      assert rs[1..] == AudioRequests(chunks[1..]);
    }
  }

  lemma AudioRequestsCons(chunk: seq<Byte>, rest: seq<seq<Byte>>)
    ensures AudioRequests([chunk] + rest) == [StreamingAudio(chunk)] + AudioRequests(rest)
  {
    assert ([chunk] + rest)[1..] == rest;
  }

  /**
   * One more read in the streaming loop: the request for the chunk read
   * moves from what is left of the file to the list built so far.
   */
  lemma StreamingReadStep(built: seq<StreamingDetectIntentRequest>, session: string, data: seq<Byte>,
                          size: nat, rest: seq<Byte>, n: nat)
    requires size > 0 && rest != []
    requires n == if |rest| < size then |rest| else size
    requires built + AudioRequests(Chunks(rest, size)) == StreamingRequests(session, data, size)
    ensures (built + [StreamingAudio(rest[..n])]) + AudioRequests(Chunks(rest[n..], size))
            == StreamingRequests(session, data, size)
  {
    ChunksFirst(rest, size, n);
    AudioRequestsCons(rest[..n], Chunks(rest[n..], size));
  }

  /**
   * The streaming list: one header first, the only request that names the
   * session and carries the audio config, and no audio in it; then one
   * request per read, in read order, each carrying only that read's bytes
   * (at most one buffer) and the language code. An empty file gives the
   * header alone.
   */
  lemma StreamingFraming(session: string, data: seq<Byte>, bufferSize: nat)
    requires bufferSize > 0 && session != ""
    ensures var rs := StreamingRequests(session, data, bufferSize);
      && |rs| == 1 + |Chunks(data, bufferSize)|
      && rs[0].session == session
      && rs[0].queryInput == QueryInput(AudioInput(Some(Linear16Config), []), "en-US")
      && (forall i :: 1 <= i < |rs| ==>
            && rs[i].session == ""
            && rs[i].queryInput.audio.config == None
            && rs[i].queryInput.languageCode == "en-US"
            && rs[i].queryInput.audio.audio == Chunks(data, bufferSize)[i - 1]
            && 0 < |rs[i].queryInput.audio.audio| <= bufferSize)
      && (data == [] <==> |rs| == 1)
  {
    var chunks := Chunks(data, bufferSize);
    var rs := StreamingRequests(session, data, bufferSize);
    ChunksShape(data, bufferSize);
    AudioRequestsShape(chunks);
    assert rs[0] == StreamingHeader(session);
    forall i | 1 <= i < |rs|
      ensures rs[i] == StreamingAudio(chunks[i - 1])
    {
      assert rs[i] == AudioRequests(chunks)[i - 1];
    }
  }

  /**
   * Recorded chunks are streamed after the header as the same chunks, one
   * request each, in recording order, exactly when they have the shape a
   * read loop returns (every chunk non-empty, all but the last full).
   */
  lemma CapturesStreamed(session: string, captured: seq<seq<Byte>>, size: nat)
    requires size > 0
    ensures StreamingRequests(session, Flatten(captured), size) == [StreamingHeader(session)] + AudioRequests(captured)
            <==> ReadShaped(captured, size)
  {
    var chunks := Chunks(Flatten(captured), size);
    RereadIff(captured, size);
    AudioRequestsShape(chunks);
    AudioRequestsShape(captured);
    if StreamingRequests(session, Flatten(captured), size) == [StreamingHeader(session)] + AudioRequests(captured) {
      assert AudioRequests(chunks) == AudioRequests(captured) by {
        assert StreamingRequests(session, Flatten(captured), size)[1..] == AudioRequests(chunks);
        assert ([StreamingHeader(session)] + AudioRequests(captured))[1..] == AudioRequests(captured);
      }
      assert chunks == captured;
    }
  }

  /**
   * Two short recorded chunks fit in one buffer once written to the file, so
   * they are streamed as a single request.
   */
  lemma ShortCapturesMerged()
    ensures StreamingRequests("s", Flatten([[1], [2]]), 2) == [StreamingHeader("s"), StreamingAudio([1, 2])]
  {
    assert Flatten([[1], [2]]) == [1, 2] by {
      assert [[1], [2]][1..] == [[2]];
      assert [[2]][1..] == [];
    }
    assert Chunks([1, 2], 2) == [[1, 2]];
    assert AudioRequests([[1, 2]]) == [StreamingAudio([1, 2])] by {
      assert [[1, 2]][1..] == [];
    }
  }

  /**
   * Concatenating the audio of the streaming list in order gives back the
   * file, and the number of bytes sent is the file length.
   */
  lemma StreamingAudioRoundTrip(session: string, data: seq<Byte>, bufferSize: nat)
    requires bufferSize > 0
    ensures var rs := StreamingRequests(session, data, bufferSize);
      Flatten(AudioOf(rs)) == data && TotalLength(AudioOf(rs)) == |data|
  {
    var chunks := Chunks(data, bufferSize);
    var rs := StreamingRequests(session, data, bufferSize);
    ChunksShape(data, bufferSize);
    AudioRequestsShape(chunks);
    assert rs[1..] == AudioRequests(chunks);
    assert AudioOf(rs) == [[]] + chunks;
    assert ([[]] + chunks)[1..] == chunks;
    FlattenLength(AudioOf(rs));
  }

  /**
   * The unary request names the session, carries the audio config and the
   * language code, and its audio is the file followed by the padding of the
   * last buffer: one whole buffer per read.
   */
  lemma BulkFraming(session: string, data: seq<Byte>, bufferSize: nat)
    requires bufferSize > 0
    ensures var r := BulkRequest(session, data, bufferSize);
      && r.session == session
      && r.queryInput.audio.config == Some(Linear16Config)
      && r.queryInput.languageCode == "en-US"
      && |r.queryInput.audio.audio| == |Chunks(data, bufferSize)| * bufferSize
      && |data| <= |r.queryInput.audio.audio|
      && r.queryInput.audio.audio[..|data|] == data
      && (data == [] <==> r.queryInput.audio.audio == [])
  {
    BulkPayloadShape(data, bufferSize);
  }

  /**
   * A one-byte file read through a two-byte buffer is sent as two bytes: the
   * bulk payload is not the file.
   */
  lemma BulkPayloadNotFile()
    ensures BulkRequest("s", [7], 2).queryInput.audio.audio == [7, 0]
  {
    var chunks := Chunks([7], 2);
    assert chunks == [[7]];
    assert chunks[1..] == [];
    assert Zeros(2)[1..] == [0];
  }
}
