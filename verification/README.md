# Dialogflow voice client over gRPC: capture and request framing

The Android app records microphone audio as 16-bit linear PCM at 44100 Hz
into a cache file. It then sends the file to a Dialogflow CX agent in one of
two ways, depending on which button stopped the recording:

- **Streaming.** A list of `StreamingDetectIntentRequest`s. The first one
  carries the session name, the audio config and the language code. Each
  later one carries one read of the file and the language code.
- **Bulk.** One `DetectIntentRequest` whose audio is accumulated read by
  read.

This project models that core in Dafny:

- the record/stop state of `MainActivity` (`isRecording`, `mode`, `recorder`);
- the two click handlers;
- `startRecording`, `recordAudio`, `stopRecording` and `onStop`;
- both branches of `sendAudioToBot`;
- the session resource name built in `setupBot`.

It then proves what these operations guarantee.

The modules, in dependency order:

- `Chunking`. The Kotlin `Byte`, and the pieces a read loop cuts a file
  into (`Chunks`). Also the bulk accumulation, in two forms: as the loop runs
  it (`BulkLoop`) and structurally (`BulkBytes`, `BulkPayload`). It holds the
  lemmas on payload length, prefix and tail.
- `Requests`. The protobuf messages as datatypes, with unset fields at their
  defaults (`""`, empty bytes, `None`). The framing functions
  `StreamingRequests`, `BulkRequest` and `Framed`, and the framing lemmas.
- `ResourceNames`. `joinToString("/")`, `split("/")`, and the session name
  with its format and round-trip lemmas.
- `Io`. `FileInputStream` and `AudioRecord` as classes whose `Read` methods
  advance their state and fill the front of the caller's array.
- `Activity`. `class MainActivity` with its fields and one method per
  handler. `SendAudioToBot`, `StreamingBranch` and `BulkBranch` run the
  read loops against the specification functions above.

A bulk upload is modelled as the code does it. A byte-exact upload would
send the file as recorded. The code instead appends the whole buffer after
every successful read (`audioBytes += buffer`, MainActivity.kt:339), not just
the bytes read. The payload is therefore padded to a multiple of the buffer
size, with bytes left over from the previous read:

- `Requests.BulkPayloadNotFile` shows a one-byte file sent as two bytes.
- `Chunking.BulkPayloadExactIff` shows that the payload equals the file
  exactly when the file length is a multiple of the buffer size.

## Model

| member | source | states |
|---|---|---|
| Activity.MainActivity.constructor | app/src/main/java/com/example/dialogflowvoicegrpc/MainActivity.kt:48-60 | The recording buffer is the device minimum times BUFFER_SIZE_FACTOR (2), so each read asks for the minimum. Nothing is recording, no device is held, the mode is bulk, the cache file keeps what an earlier run left, and the session name is the joined resource name. |
| Activity.MainActivity.OnBulkClick | app/src/main/java/com/example/dialogflowvoicegrpc/MainActivity.kt:68-84 | The mode becomes bulk before the branch. While recording, the held device is stopped and released once, the activity is halted and the unary request for the cached file is sent. Otherwise, without permission nothing changes, including a device left from an earlier failed start. With permission a recording is made, and that leftover device is left untouched. |
| Activity.MainActivity.OnStreamingClick | app/src/main/java/com/example/dialogflowvoicegrpc/MainActivity.kt:86-102 | The same for the streaming button. The mode becomes streaming, and a stop stops and releases the device once and sends the streaming request list for the cached file. |
| Activity.MainActivity.OnStop | app/src/main/java/com/example/dialogflowvoicegrpc/MainActivity.kt:129-139 | Afterwards the flag is down and no device is held. A device held before is stopped and released exactly once. The mode and the file are untouched. |
| Activity.MainActivity.StartRecording | app/src/main/java/com/example/dialogflowvoicegrpc/MainActivity.kt:141-171 | Without the permission it returns with nothing changed and no loop started. With it, the state is the one recordAudio leaves. |
| Activity.MainActivity.RecordAudio | app/src/main/java/com/example/dialogflowvoicegrpc/MainActivity.kt:174-227 | The file is truncated and a fresh device is held. If the device did not initialise, the flag stays down and the file stays empty. Otherwise the flag is up and the file is every chunk read, in order. totalDataRead is the sum of the read counts and equals the file length. |
| Activity.MainActivity.StopRecording | app/src/main/java/com/example/dialogflowvoicegrpc/MainActivity.kt:229-256 | Afterwards the flag is down and no device is held. A held device is stopped and released exactly once, and one that is absent is not touched. The mode and the file are untouched. |
| Activity.StopThenOnStop | app/src/main/java/com/example/dialogflowvoicegrpc/MainActivity.kt:229-236 | A stop followed by onStop stops and releases the device held before exactly once: the second call finds no device. |
| Activity.MainActivity.SendAudioToBot | app/src/main/java/com/example/dialogflowvoicegrpc/MainActivity.kt:258-383 | What is handed to the stub is the framing of the cached file for the given mode. totalDataWrite is the file length. |
| Activity.MainActivity.StreamingBranch | app/src/main/java/com/example/dialogflowvoicegrpc/MainActivity.kt:272-333 | The loop builds exactly StreamingRequests of the file: the header, then one request per read until read returns -1. totalDataWrite is the file length. |
| Activity.MainActivity.BulkBranch | app/src/main/java/com/example/dialogflowvoicegrpc/MainActivity.kt:334-373 | The loop, appending the whole buffer after each read, builds exactly the bulk request of the file. totalDataWrite is the file length. |
| Io.FileInputStream.Read | app/src/main/java/com/example/dialogflowvoicegrpc/MainActivity.kt:297 | read(b, 0, b.size) returns 0 for an empty array and -1 at the end of the file. Otherwise it returns min(remaining, b.size), copies that many bytes of the file to the front of b, keeps the rest of b and advances the position. |
| Io.AudioRecord.Read | app/src/main/java/com/example/dialogflowvoicegrpc/MainActivity.kt:207 | A device read copies the next captured chunk to the front of the buffer and returns its length. |
| Io.AudioRecord.constructor | app/src/main/java/com/example/dialogflowvoicegrpc/MainActivity.kt:187-193 | A new device, initialised or not as given, not recording, never stopped or released, with the chunks the microphone will deliver. |
| Io.FileInputStream.constructor | app/src/main/java/com/example/dialogflowvoicegrpc/MainActivity.kt:266 | A stream opened on the file, positioned at its start. |
| Io.AudioRecord.StartRecording | app/src/main/java/com/example/dialogflowvoicegrpc/MainActivity.kt:200 | The device is recording. |
| Io.AudioRecord.Stop | app/src/main/java/com/example/dialogflowvoicegrpc/MainActivity.kt:233 | The device is no longer recording, and one more stop is counted. |
| Io.AudioRecord.Release | app/src/main/java/com/example/dialogflowvoicegrpc/MainActivity.kt:234 | One more release is counted. |
| Requests.Framed | app/src/main/java/com/example/dialogflowvoicegrpc/MainActivity.kt:272-373 | The streaming mode gives a streaming request list and the bulk mode gives one unary request, never a mix. |
| Requests.StreamingFraming | app/src/main/java/com/example/dialogflowvoicegrpc/MainActivity.kt:274-318 | The list is 1 + number of reads long. The first request alone names the session and carries the LINEAR16/44100 config, and it has no audio. Every later request has no session and no config, has language "en-US", and carries the i-th read of 1..bufferSize bytes. An empty file gives the header alone, and only an empty file does. |
| Requests.StreamingAudioRoundTrip | app/src/main/java/com/example/dialogflowvoicegrpc/MainActivity.kt:296-316 | Concatenating the audio of the list in order gives back the file, and the audio lengths sum to the file length. |
| Requests.StreamingReadStep | app/src/main/java/com/example/dialogflowvoicegrpc/MainActivity.kt:297-313 | One read moves the request for the chunk read from what is left to the list built so far. |
| Requests.AudioRequestsShape | app/src/main/java/com/example/dialogflowvoicegrpc/MainActivity.kt:299-313 | One audio-only request per chunk, in chunk order, whose audio is exactly that chunk. |
| Requests.BulkFraming | app/src/main/java/com/example/dialogflowvoicegrpc/MainActivity.kt:335-366 | One request names the session, carries the config and "en-US", and has audio of (number of reads) × bufferSize bytes. That is at least the file length, with the file as its prefix, and it is empty exactly when the file is. |
| Requests.BulkPayloadNotFile | app/src/main/java/com/example/dialogflowvoicegrpc/MainActivity.kt:339 | A one-byte file read through a two-byte buffer is sent as [7, 0], not as the file. |
| Activity.StreamingCycle | app/src/main/java/com/example/dialogflowvoicegrpc/MainActivity.kt:86-102 | A streaming click that starts a recording, then one that stops it, on a device that initialises. When the chunks read from the microphone are non-empty and all but the last filled the buffer, the header goes out followed by one request per recorded chunk, in recording order. |
| Activity.BulkCycle | app/src/main/java/com/example/dialogflowvoicegrpc/MainActivity.kt:68-84 | The same cycle with the bulk button. When every recorded chunk filled the buffer, the one request carries exactly the recorded bytes. |
| Requests.CapturesStreamed | app/src/main/java/com/example/dialogflowvoicegrpc/MainActivity.kt:206-215 | Recorded chunks are streamed after the header as the same chunks, one request each, in order, if and only if every chunk is non-empty and all but the last fill the buffer. |
| Requests.ShortCapturesMerged | app/src/main/java/com/example/dialogflowvoicegrpc/MainActivity.kt:296-313 | Two one-byte recorded chunks, re-read through a two-byte buffer, go out as one request: a short chunk before the last merges with the next. |
| Chunking.RereadIff | app/src/main/java/com/example/dialogflowvoicegrpc/MainActivity.kt:206-215 | Re-reading the file in buffer-size pieces gives back the recorded chunks if and only if every chunk is non-empty and all but the last fill the buffer. |
| Chunking.ShapedReread | app/src/main/java/com/example/dialogflowvoicegrpc/MainActivity.kt:206-215 | Chunks that are non-empty, fit the buffer and are all full but the last are read back from the file as the same chunks. |
| Chunking.FullCapturesSentExactly | app/src/main/java/com/example/dialogflowvoicegrpc/MainActivity.kt:336-343 | Chunks recorded at full buffer size are uploaded in bulk with no padding: the payload is the recording. |
| Chunking.FullFlattenLength | app/src/main/java/com/example/dialogflowvoicegrpc/MainActivity.kt:206-215 | n chunks of size bytes each put n × size bytes in the file. |
| Chunking.ChunksShape | app/src/main/java/com/example/dialogflowvoicegrpc/MainActivity.kt:296-297 | Every read returns 1..size bytes, and every read but the last fills the buffer. The reads concatenate to the file, and there are none exactly when the file is empty. |
| Chunking.ChunksFirst | app/src/main/java/com/example/dialogflowvoicegrpc/MainActivity.kt:297 | A read returns the first min(remaining, size) bytes, and the rest is read the same way. |
| Chunking.ChunkCount | app/src/main/java/com/example/dialogflowvoicegrpc/MainActivity.kt:296-298 | A file of q·size + rem bytes takes q reads, plus one if rem > 0, and then the last read returns rem bytes. |
| Chunking.LastChunkLength | app/src/main/java/com/example/dialogflowvoicegrpc/MainActivity.kt:337 | The last read of a non-empty file returns 1..size bytes. |
| Chunking.LastChunkIsLast | app/src/main/java/com/example/dialogflowvoicegrpc/MainActivity.kt:296-297 | For a non-empty file there is at least one read, and LastChunkLength is the length of the last read in the list. |
| Chunking.FlattenLength | app/src/main/java/com/example/dialogflowvoicegrpc/MainActivity.kt:316 | The total of the read counts is the length of the concatenated reads. |
| Chunking.BulkLoopAppends | app/src/main/java/com/example/dialogflowvoicegrpc/MainActivity.kt:336-343 | Running the bulk loop from any state appends the bulk bytes of what is left to what was built. |
| Chunking.BulkLoopBuildsPayload | app/src/main/java/com/example/dialogflowvoicegrpc/MainActivity.kt:335-343 | The loop started with empty audioBytes and a zeroed buffer builds the bulk payload. |
| Chunking.BulkBytesLength | app/src/main/java/com/example/dialogflowvoicegrpc/MainActivity.kt:336-342 | Every read appends one whole buffer: the length is (number of reads) × size. |
| Chunking.BulkBytesPrefix | app/src/main/java/com/example/dialogflowvoicegrpc/MainActivity.kt:336-342 | The file's bytes come first, in order. |
| Chunking.BulkPayloadShape | app/src/main/java/com/example/dialogflowvoicegrpc/MainActivity.kt:335-346 | The payload length is (number of reads) × size, at least the file length, with the file as prefix. It is empty exactly when the file is. |
| Chunking.BulkPayloadExactIff | app/src/main/java/com/example/dialogflowvoicegrpc/MainActivity.kt:339 | The payload equals the file exactly when the file length is a multiple of the buffer size. |
| Chunking.BulkBytesTail | app/src/main/java/com/example/dialogflowvoicegrpc/MainActivity.kt:337-341 | The bytes after the file's end are the part of the previous buffer that the last read did not overwrite. For a file shorter than one buffer, they come from the initial buffer. |
| Chunking.BulkPayloadTail | app/src/main/java/com/example/dialogflowvoicegrpc/MainActivity.kt:337-341 | When the length is not a multiple of the size, the payload is longer than the file. Its tail is zeros for a file shorter than one buffer, and otherwise bytes of the file already sent once: data[len - size .. (len / size) · size]. |
| Chunking.BulkPayloadTailSplit | app/src/main/java/com/example/dialogflowvoicegrpc/MainActivity.kt:337-341 | The same tail statement, for a length given as q·size + rem. |
| ResourceNames.SessionName | app/src/main/java/com/example/dialogflowvoicegrpc/MainActivity.kt:400-405 | The eight components joined with '/', never shorter than "projects/" plus one character. |
| ResourceNames.SessionNameFormat | app/src/main/java/com/example/dialogflowvoicegrpc/MainActivity.kt:400-405 | The session name is projects/{p}/locations/{l}/agents/{a}/sessions/{s}. |
| ResourceNames.SessionNameRoundTrip | app/src/main/java/com/example/dialogflowvoicegrpc/MainActivity.kt:400-405 | Splitting the session name on '/' gives back the eight components if and only if none of the four identifiers contains '/'. |
| ResourceNames.SplitJoin | app/src/main/java/com/example/dialogflowvoicegrpc/MainActivity.kt:405 | joinToString then split recovers the parts when no part holds the separator. |
| ResourceNames.SplitJoinTooMany | app/src/main/java/com/example/dialogflowvoicegrpc/MainActivity.kt:405 | If some part holds the separator, the split yields more fields than there were parts. |

## Left out

- The gRPC stub calls and their responses are not modelled:
  `streamingDetectIntent`, `detectIntent`, collecting the responses, and
  `updateUI`. The model returns the request list or the request handed to
  the stub.
- Coroutines (`lifecycleScope.launch`, `Dispatchers.IO`, `runOnUiThread`) are
  not modelled. A launched coroutine runs to completion where it is
  launched. `sendAudioToBot` receives the mode the click just set, though
  the real coroutine may read the field later. Races between the UI thread
  and the recording loop are not modelled. In particular, a click on the
  other button while its coroutine still runs is not modelled.
  Two hazards of the code as written are therefore outside the model.
  First, sendAudioToBot may open the file before the recording coroutine's
  last `write` and `close` (MainActivity.kt:211, 221). Second, the recording
  loop may reach `recorder!!.read` after stopRecording has set `recorder` to
  null (MainActivity.kt:206-207 against 230-236).
- The end of a recording is not modelled as a race. The loop
  `while (isRecording)` is modelled as reading the device's captured chunks
  until none are left. The flag being cleared by a stop click is assumed to
  come after the last read.
- The UI is not modelled: button visibility, icons, colours and the hint
  text. Because the other button is hidden while recording, only the button
  that started a recording can stop it. The model lets either button stop
  it, as the handlers' code does.
- The permission request APIs, `hasPermission` and
  `onRequestPermissionsResult` are not modelled. The permission check is a
  parameter.
- `setupBot` is modelled only through the session name. The JSON parsing
  of the project, location and agent identifiers, `UUID.randomUUID()` for
  the session id, and the credentials and channel setup are all left out.
  The identifiers are parameters.
- `getMinBufferSize` is a parameter, required to be positive. Its error
  codes are not modelled.
- The cache file is assumed to open. If `FileOutputStream` fails
  (MainActivity.kt:182-185), the code logs and returns from recordAudio
  before creating a device: `recorder`, the file and `isRecording` keep their
  values. If `FileInputStream` fails (MainActivity.kt:267-270), the code logs
  and sendAudioToBot sends nothing. Neither early return is modelled.
  Activity.MainActivity.RecordAudio always truncates the file and creates a
  device. Activity.MainActivity.SendAudioToBot always sends.
- The `IOException` handlers around `write`, `flush` and `close`
  (MainActivity.kt:210-214, 219-225, 376-381) only log. Writes are taken to
  succeed. `inputStream.read` (MainActivity.kt:297, 337) is outside any
  `try`: an `IOException` there would leave sendAudioToBot before the stub
  is called. Reads are taken to succeed.
- Activity.StreamingCycle requires the recorded chunks to be non-empty, with
  all but the last filling the buffer. For other recordings, a short chunk
  before the last or an empty chunk merges with its neighbours when the file
  is re-read (Requests.ShortCapturesMerged), and Requests.CapturesStreamed
  shows that the recorded chunking is then not kept. A short last chunk is
  streamed as recorded.
- Activity.BulkCycle requires every recorded chunk to fill the buffer. When
  the recording length is not a multiple of the buffer size, the payload is
  padded (Chunking.BulkPayloadExactIff). For other inputs, the model gives
  only what StreamingFraming and BulkFraming state about the file.
- Negative error codes from `AudioRecord.read` are not modelled. Each
  device read returns a captured chunk of 0..bufferSize bytes.
- Calling `stop()` on a device that never initialised would throw. The
  model counts the calls instead.
- `FileInputStream` reads that return fewer bytes than are available are
  not modelled. Each read returns min(remaining, size).
- Activity.MainActivity.RecordAudio: its totals are unbounded integers. The
  32-bit overflow of `totalDataRead` on recordings over 2 GiB is not
  modelled.
- Activity.MainActivity.SendAudioToBot: the same holds for
  `totalDataWrite`: its 32-bit overflow is not modelled.
- Activity.MainActivity.StartRecording: requires that nothing is recording.
  Its only callers are the click handlers' branch for "not recording".
- The `mode` argument of `startRecording` only picks which button's icon
  changes, so the model leaves it out.
- Logging is not modelled.
