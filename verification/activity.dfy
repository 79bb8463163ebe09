/**
 * `MainActivity`: the record/stop state held in the fields `isRecording`,
 * `mode` and `recorder`, the cached PCM file the recording loop writes, and
 * the two click handlers that start a recording or stop it and frame the
 * file for the bot. The buttons' looks, the permission prompt, the RPC
 * calls and the coroutine scheduling are not modelled: a launched coroutine
 * runs to completion at the point where it is launched.
 */
module Activity {
  import opened Chunking
  import opened Requests
  import opened ResourceNames
  import opened Io

  /** BUFFER_SIZE_FACTOR: the recording buffer is twice the device minimum. */
  const BufferSizeFactor: nat := 2

  class MainActivity {
    /** `getMinBufferSize(...) * BUFFER_SIZE_FACTOR`. */
    const recordBufferSize: nat
    /** The session resource name built by `setupBot`. */
    const sessionName: string

    var isRecording: bool
    /** false: bulk button last pressed; true: streaming button last pressed. */
    var mode: bool
    var recorder: AudioRecord?
    /** The content of the cache file `audio_record.pcm`. */
    var audioFile: seq<Byte>

    ghost predicate Valid()
      reads this
    {
      && recordBufferSize >= 2
      && recordBufferSize % 2 == 0
      && |sessionName| > 0
      && (isRecording ==> recorder != null && recorder.initialized)
    }

    /** The size of the byte array both loops read into: `recordBufferSize / 2`. */
    function BufferSize(): nat
    {
      recordBufferSize / 2
    }

    /** Both loops stopped: the flag is down and no device is held. */
    ghost predicate Halted()
      reads this
    {
      !isRecording && recorder == null
    }

    /**
     * The state `recordAudio` leaves: a new device, recording only if it
     * initialised; the file truncated, then holding every chunk read, in
     * order.
     */
    ghost predicate Recorded(deviceInitializes: bool, captured: seq<seq<Byte>>)
      reads this, recorder
    {
      && recorder != null
      && recorder.initialized == deviceInitializes
      && recorder.stopCalls == 0 && recorder.releaseCalls == 0
      && isRecording == deviceInitializes
      && recorder.recording == deviceInitializes
      && (deviceInitializes ==> recorder.pending == [] && audioFile == Flatten(captured))
      && (!deviceInitializes ==> audioFile == [])
    }

    /**
     * `onCreate` with `setupBot`: the minimum device buffer size, the agent's
     * identifiers and the random session id are given; `cachedFile` is
     * whatever an earlier run left in the cache file.
     */
    constructor (minBufferSize: nat, projectId: string, locationId: string, agentId: string,
                 sessionId: string, cachedFile: seq<Byte>)
      requires minBufferSize > 0
      ensures Valid() && Halted()
      ensures recordBufferSize == minBufferSize * BufferSizeFactor
      ensures BufferSize() == minBufferSize
      ensures sessionName == SessionName(projectId, locationId, agentId, sessionId)
      ensures !mode && audioFile == cachedFile
    {
      recordBufferSize := minBufferSize * BufferSizeFactor;
      sessionName := SessionName(projectId, locationId, agentId, sessionId);
      isRecording := false;
      mode := false;
      recorder := null;
      audioFile := cachedFile;
    }

    /** The bulk button: remember bulk mode, then stop and send, or start recording. */
    method OnBulkClick(permissionGranted: bool, deviceInitializes: bool, captured: seq<seq<Byte>>)
      returns (sent: Option<Transmission>)
      requires Valid() && AllFit(captured, BufferSize())
      modifies this, recorder
      ensures Valid() && !mode
      ensures old(isRecording) ==>
        && Halted() && audioFile == old(audioFile)
        && !old(recorder).recording
        && old(recorder).stopCalls == old(recorder.stopCalls) + 1
        && old(recorder).releaseCalls == old(recorder.releaseCalls) + 1
        && sent == Some(Unary(BulkRequest(sessionName, old(audioFile), BufferSize())))
      ensures !old(isRecording) && !permissionGranted ==>
        && sent == None && !isRecording && recorder == old(recorder) && audioFile == old(audioFile)
        && (old(recorder) != null ==> unchanged(old(recorder)))
      ensures !old(isRecording) && permissionGranted ==>
        && sent == None && Recorded(deviceInitializes, captured) && fresh(recorder)
        && (old(recorder) != null ==> unchanged(old(recorder)))
    {
      mode := false;
      if isRecording {
        StopRecording();
        var t, totalDataWrite := SendAudioToBot(mode);
        sent := Some(t);
      } else {
        StartRecording(permissionGranted, deviceInitializes, captured);
        sent := None;
      }
    }

    /** The streaming button: remember streaming mode, then stop and send, or start recording. */
    method OnStreamingClick(permissionGranted: bool, deviceInitializes: bool, captured: seq<seq<Byte>>)
      returns (sent: Option<Transmission>)
      requires Valid() && AllFit(captured, BufferSize())
      modifies this, recorder
      ensures Valid() && mode
      ensures old(isRecording) ==>
        && Halted() && audioFile == old(audioFile)
        && !old(recorder).recording
        && old(recorder).stopCalls == old(recorder.stopCalls) + 1
        && old(recorder).releaseCalls == old(recorder.releaseCalls) + 1
        && sent == Some(Streaming(StreamingRequests(sessionName, old(audioFile), BufferSize())))
      ensures !old(isRecording) && !permissionGranted ==>
        && sent == None && !isRecording && recorder == old(recorder) && audioFile == old(audioFile)
        && (old(recorder) != null ==> unchanged(old(recorder)))
      ensures !old(isRecording) && permissionGranted ==>
        && sent == None && Recorded(deviceInitializes, captured) && fresh(recorder)
        && (old(recorder) != null ==> unchanged(old(recorder)))
    {
      mode := true;
      if isRecording {
        StopRecording();
        var t, totalDataWrite := SendAudioToBot(mode);
        sent := Some(t);
      } else {
        StartRecording(permissionGranted, deviceInitializes, captured);
        sent := None;
      }
    }

    /** `onStop`: clear the flag, stop and release the device if one is held, drop it. */
    method OnStop()
      requires Valid()
      modifies this, recorder
      ensures Valid() && Halted()
      ensures mode == old(mode) && audioFile == old(audioFile)
      ensures old(recorder) != null ==>
        && !old(recorder).recording
        && old(recorder).stopCalls == old(recorder.stopCalls) + 1
        && old(recorder).releaseCalls == old(recorder.releaseCalls) + 1
    {
      isRecording := false;
      if recorder != null {
        recorder.Stop();
        recorder.Release();
      }
      recorder := null;
    }

    /**
     * `startRecording`: without the microphone permission nothing changes
     * (the permission prompt is outside the model); otherwise `recordAudio`
     * runs.
     */
    method StartRecording(permissionGranted: bool, deviceInitializes: bool, captured: seq<seq<Byte>>)
      requires Valid() && !isRecording && AllFit(captured, BufferSize())
      modifies this
      ensures Valid() && mode == old(mode)
      ensures !permissionGranted ==>
        !isRecording && recorder == old(recorder) && audioFile == old(audioFile)
      ensures permissionGranted ==> Recorded(deviceInitializes, captured) && fresh(recorder)
    {
      if !permissionGranted {
        return;
      }
      var totalDataRead := RecordAudio(deviceInitializes, captured);
    }

    /**
     * `recordAudio`: truncate the file, create the device, give up unless it
     * initialised; otherwise raise the flag and append each chunk read to the
     * file until the microphone has no more (the flag being cleared). The
     * result is `totalDataRead`, the sum of the read counts.
     */
    method RecordAudio(deviceInitializes: bool, captured: seq<seq<Byte>>) returns (totalDataRead: int)
      requires Valid() && !isRecording && AllFit(captured, BufferSize())
      modifies this
      ensures Valid() && mode == old(mode)
      ensures Recorded(deviceInitializes, captured) && fresh(recorder)
      ensures totalDataRead == if deviceInitializes then TotalLength(captured) else 0
      ensures totalDataRead == |audioFile|
    {
      var buffer := new Byte[BufferSize()];
      totalDataRead := 0;
      audioFile := [];
      var rec := new AudioRecord(deviceInitializes, captured);
      recorder := rec;
      if !rec.initialized {
        return;
      }
      rec.StartRecording();
      isRecording := true;
      while rec.pending != []
        invariant recorder == rec && isRecording && rec.recording && mode == old(mode)
        invariant rec.stopCalls == 0 && rec.releaseCalls == 0
        invariant buffer.Length == BufferSize() && AllFit(rec.pending, buffer.Length)
        invariant audioFile + Flatten(rec.pending) == Flatten(captured)
        invariant totalDataRead + TotalLength(rec.pending) == TotalLength(captured)
        decreases |rec.pending|
      {
        var n := rec.Read(buffer);
        totalDataRead := totalDataRead + n;
        audioFile := audioFile + buffer[..n];
      }
      FlattenLength(captured);
    }

    /** `stopRecording`: clear the flag, stop and release the device if one is held, drop it. */
    method StopRecording()
      requires Valid()
      modifies this, recorder
      ensures Valid() && Halted()
      ensures mode == old(mode) && audioFile == old(audioFile)
      ensures old(recorder) != null ==>
        && !old(recorder).recording
        && old(recorder).stopCalls == old(recorder.stopCalls) + 1
        && old(recorder).releaseCalls == old(recorder.releaseCalls) + 1
    {
      isRecording := false;
      if recorder != null {
        recorder.Stop();
        recorder.Release();
      }
      recorder := null;
    }

    /**
     * `sendAudioToBot(mode)`: frame the cached file for the bot, as a
     * streaming request list or as one unary request. Also gives
     * `totalDataWrite`, the number of bytes read from the file.
     */
    method SendAudioToBot(mode: bool) returns (t: Transmission, totalDataWrite: int)
      requires Valid()
      ensures t == Framed(mode, sessionName, audioFile, BufferSize())
      ensures totalDataWrite == |audioFile|
    {
      if mode {
        var requestList;
        requestList, totalDataWrite := StreamingBranch();
        t := Streaming(requestList);
      } else {
        var request;
        request, totalDataWrite := BulkBranch();
        t := Unary(request);
      }
    }

    /**
     * The streaming branch of `sendAudioToBot`: a header request, then one
     * audio-only request per successful `read` of `BufferSize()` bytes from
     * the file, until `read` returns -1.
     */
    method StreamingBranch() returns (requestList: seq<StreamingDetectIntentRequest>, totalDataWrite: int)
      requires Valid()
      ensures requestList == StreamingRequests(sessionName, audioFile, BufferSize())
      ensures totalDataWrite == |audioFile|
    {
      var size := BufferSize();
      var content := audioFile;
      var buffer := new Byte[size](_ => 0);
      var inputStream := new FileInputStream(content);
      totalDataWrite := 0;
      var numberOfDataRead := 0;
      requestList := [StreamingHeader(sessionName)];
      // `rest`: what the file still holds.
      ghost var rest := content;
      while numberOfDataRead != -1
        invariant inputStream.Valid() && inputStream.content == content && buffer.Length == size > 0
        invariant numberOfDataRead == -1 ==> inputStream.position == |content|
        invariant totalDataWrite == inputStream.position
        invariant rest == content[inputStream.position..]
        invariant requestList + AudioRequests(Chunks(rest, size)) == StreamingRequests(sessionName, content, size)
        decreases |content| - inputStream.position + (if numberOfDataRead == -1 then 0 else 1)
      {
        ghost var before := inputStream.position;
        numberOfDataRead := inputStream.Read(buffer);
        if numberOfDataRead != -1 {
          assert rest[..numberOfDataRead] == content[before..inputStream.position];
          assert rest[numberOfDataRead..] == content[inputStream.position..];
          StreamingReadStep(requestList, sessionName, content, size, rest, numberOfDataRead);
          requestList := requestList + [StreamingAudio(buffer[..numberOfDataRead])];
          rest := rest[numberOfDataRead..];
          totalDataWrite := totalDataWrite + numberOfDataRead;
        }
      }
      assert rest == [];
    }

    /**
     * The bulk branch of `sendAudioToBot`: after each successful `read` the
     * WHOLE buffer is appended to the audio bytes (`audioBytes += buffer`),
     * then one request carries them.
     */
    method BulkBranch() returns (request: DetectIntentRequest, totalDataWrite: int)
      requires Valid()
      ensures request == BulkRequest(sessionName, audioFile, BufferSize())
      ensures totalDataWrite == |audioFile|
    {
      var size := BufferSize();
      var content := audioFile;
      var buffer := new Byte[size](_ => 0);
      var inputStream := new FileInputStream(content);
      totalDataWrite := 0;
      var numberOfDataRead := 0;
      var audioBytes: seq<Byte> := [];
      assert size > 0;
      // `rest`: what the file still holds; `held`: the content of `buffer`.
      ghost var rest, held := content, buffer[..];
      assert held == Zeros(size);
      BulkLoopBuildsPayload(content, size);
      while numberOfDataRead != -1
        invariant inputStream.Valid() && inputStream.content == content && buffer.Length == size > 0
        invariant numberOfDataRead == -1 ==> inputStream.position == |content|
        invariant totalDataWrite == inputStream.position
        invariant rest == content[inputStream.position..] && held == buffer[..]
        invariant BulkLoop(audioBytes, rest, size, held) == BulkPayload(content, size)
        decreases |content| - inputStream.position + (if numberOfDataRead == -1 then 0 else 1)
      {
        ghost var before := inputStream.position;
        numberOfDataRead := inputStream.Read(buffer);
        if numberOfDataRead != -1 {
          assert rest[..numberOfDataRead] == content[before..inputStream.position];
          assert rest[numberOfDataRead..] == content[inputStream.position..];
          held := rest[..numberOfDataRead] + held[numberOfDataRead..];
          rest := rest[numberOfDataRead..];
          audioBytes := audioBytes + buffer[..];
          totalDataWrite := totalDataWrite + numberOfDataRead;
        }
      }
      request := UnaryRequest(sessionName, audioBytes);
    }
  }

  /**
   * A whole streaming cycle: a streaming click that starts a recording on a
   * device that initialises, then a streaming click that stops it. When the
   * chunks read from the microphone are non-empty and all but the last filled
   * the buffer, the header goes out followed by one request per recorded
   * chunk, in recording order.
   */
  method StreamingCycle(a: MainActivity, captured: seq<seq<Byte>>) returns (sent: Option<Transmission>)
    requires a.Valid() && !a.isRecording && ReadShaped(captured, a.BufferSize())
    modifies a, a.recorder
    ensures a.Valid() && a.Halted()
    ensures sent == Some(Streaming([StreamingHeader(a.sessionName)] + AudioRequests(captured)))
  {
    var started := a.OnStreamingClick(true, true, captured);
    sent := a.OnStreamingClick(true, true, captured);
    CapturesStreamed(a.sessionName, captured, a.BufferSize());
  }

  /**
   * A whole bulk cycle: when every chunk read from the microphone filled the
   * buffer, the one request carries exactly the recorded bytes.
   */
  method BulkCycle(a: MainActivity, captured: seq<seq<Byte>>) returns (sent: Option<Transmission>)
    requires a.Valid() && !a.isRecording && FullChunks(captured, a.BufferSize())
    modifies a, a.recorder
    ensures a.Valid() && a.Halted()
    ensures sent == Some(Unary(UnaryRequest(a.sessionName, Flatten(captured))))
  {
    var started := a.OnBulkClick(true, true, captured);
    sent := a.OnBulkClick(true, true, captured);
    FullCapturesSentExactly(captured, a.BufferSize());
  }

  /**
   * Stopping twice, as a stop click followed by the activity's `onStop`
   * does: the device held before is stopped and released exactly once.
   */
  method StopThenOnStop(a: MainActivity)
    requires a.Valid()
    modifies a, a.recorder
    ensures a.Valid() && a.Halted()
    ensures old(a.recorder) != null ==>
      && old(a.recorder).stopCalls == old(a.recorder.stopCalls) + 1
      && old(a.recorder).releaseCalls == old(a.recorder.releaseCalls) + 1
  {
    a.StopRecording();
    a.OnStop();
  }
}
