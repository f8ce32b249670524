# Meeting Mode: a Dafny model of capture, chunking, transcription and summary

Meeting Mode is an Android app. It records a meeting from the microphone as 16 kHz mono 16-bit
PCM and writes it to `full_recording.wav` in a per-meeting folder. It then runs the file through
a sequential pipeline. The pipeline chunks the recording and transcribes each chunk with an
on-device Gemma model. Each chunk's result is appended to `transcription.txt`. The whole
transcript is then summarised into `summary.txt`. Past meetings are listed from the storage
directory, newest first.

This project models the core of that app as immutable data and pure functions, and proves
properties of it in Dafny 4.11. The modules mirror the Kotlin classes.

- `Base`: `Option` and `Result`, exceptions with a nullable message, and decimal text for
  `Long.toString` and `isBlank`.
- `LittleEndian`: JVM `Int`/`Short` arithmetic with explicit wrap-around, and `ByteBuffer` in
  little-endian order.
- `Files`: `java.io.File` over an abstract file system, a map from path to directory, audio
  bytes or text.
- `WavFormat`: the 44-byte RIFF/WAVE PCM header written by `AudioRecorder.writeWavHeader`, an
  independent header reader, and the file `saveAsWav` writes. The header follows the WAVE form
  of the Microsoft/IBM *Multimedia Programming Interface and Data Specifications 1.0*.
- `AudioRecorder`: the capture loop as a fold over the device's read results, `saveAsWav`, and
  the `isRecording` start/stop state machine.
- `Sessions`: `MeetingSession.create`, `MeetingStatus`, and where a session's files live.
- `Processing`: `AudioProcessor.processAudioFile` (one whole-file chunk) and `cleanupTempFiles`.
- `KotlinText`: `String.lines()`, joining with `"\n"`, and `trimIndent()`.
- `GemmaEngine`: the four nullable model handles as a resource state machine with an event log,
  the single retry of `transcribeAudio`, `generateSummary`, and how a generation becomes result
  text.
- `MeetingOrder`: `sortedByDescending { it.timestamp }` as a stable insertion sort.
- `MeetingViewModel`: the UI state, `startRecording`, `stopRecording`,
  `startBackgroundProcessing`, `dismissCompletedDialog` and `loadCompletedMeetings`.

The model runtime, the microphone and the platform's answers are inputs, never computed. These
inputs are:

- the device's read results;
- permission and `mkdirs` outcomes;
- the engine's initialisation and generation outcomes for each attempt;
- the directory listing and the file modification times;
- the date formatter's output.

A background run returns the final world together with every UI-state update in order, so
properties about the sequence of states can be stated.

Behaviour of the code that a reader might not expect:

- The chunker emits one chunk that copies the whole recording, with start 0 and end 30 whatever
  the length. The 30 s / 5 s windowing constants are unused.
- Generation errors and timeouts are returned as *successful* result strings (`"Error during
  transcription: …"`, `"Transcription timeout - partial result: …"`). Only initialisation and
  file-read exceptions reach the transcription retry.
- The "blank transcript" error cannot happen: every entry starts with `"Chunk "`
  (`MeetingViewModel.TranscribePhase`, `MeetingViewModel.TranscriptNotBlank`).
- The temp directory is removed only on the successful path. A failed run leaves it
  (`MeetingViewModel.StartBackgroundProcessing`).
- `MeetingSession.status` is never updated by the pipeline. Loaded sessions derive their status
  from whether `summary.txt` exists. Their id is the folder name, not the timestamp.
- `stopRecording` without a current session leaves `isProcessing` set and the status
  `PROCESSING_AUDIO` (`MeetingViewModel.StopRecording`).
- A reader that treats the header's size fields as unsigned DWORDs recovers the exact sizes for
  every non-negative `Int` data size. It does not need `36 + L` to fit in a signed `Int`
  (`WavFormat.HeaderSizesExact`).

## Model

Source paths are relative to the repository root.

| member | source | states |
|---|---|---|
| `Base.IntStringRoundTrip` | app/src/main/java/com/example/meeting_mode_gemma/data/MeetingSession.kt:21 | the decimal text of any Long timestamp parses back to that timestamp |
| `Base.NatToStringInjective` | app/src/main/java/com/example/meeting_mode_gemma/data/MeetingSession.kt:21 | different numbers have different decimal texts |
| `Sessions.Ordinal` | app/src/main/java/com/example/meeting_mode_gemma/data/MeetingSession.kt:40-47 | each status sits at exactly one of the six positions of the enum's declaration order |
| `Sessions.StatusesDistinct` | app/src/main/java/com/example/meeting_mode_gemma/data/MeetingSession.kt:40-47 | the six statuses are pairwise distinct, so the ordinal is a bijection onto 0..5 |
| `Sessions.Create` | app/src/main/java/com/example/meeting_mode_gemma/data/MeetingSession.kt:17-31 | a new session is RECORDING; its folder is "meeting_" followed by the formatted time; its id parses back to the timestamp; the three artifacts are the folder followed by "/full_recording.wav", "/transcription.txt" and "/summary.txt", each with the folder as parent |
| `Sessions.CreateIdsDistinct` | app/src/main/java/com/example/meeting_mode_gemma/data/MeetingSession.kt:18-21 | sessions created at different instants get different ids |
| `Sessions.ArtifactsDistinct` | app/src/main/java/com/example/meeting_mode_gemma/data/MeetingSession.kt:27-29 | recording, transcript and summary are three different paths |
| `Sessions.AbsoluteArtifacts` | app/src/main/java/com/example/meeting_mode_gemma/ui/MeetingViewModel.kt:366-375 | for a session laid out as create lays it out, the absolute file the view model opens is the storage directory joined with the session's relative artifact path |
| `LittleEndian.Wrap32` | app/src/main/java/com/example/meeting_mode_gemma/audio/AudioRecorder.kt:165 | Int arithmetic yields a 32-bit value congruent to the true value modulo 2^32 |
| `LittleEndian.PutIntUnsigned` | app/src/main/java/com/example/meeting_mode_gemma/audio/AudioRecorder.kt:244-263 | a little-endian putInt field reads back, unsigned, as the value modulo 2^32, and exactly for a non-negative value |
| `LittleEndian.PutShortUnsigned` | app/src/main/java/com/example/meeting_mode_gemma/audio/AudioRecorder.kt:254-259 | a little-endian putShort field reads back as the value modulo 2^16, and exactly for a non-negative value |
| `LittleEndian.PutGetInt` | app/src/main/java/com/example/meeting_mode_gemma/audio/AudioRecorder.kt:244-263 | reading a putInt field back as a signed Int recovers the value written |
| `LittleEndian.FromToLE` | app/src/main/java/com/example/meeting_mode_gemma/audio/AudioRecorder.kt:244 | decoding n little-endian bytes inverts encoding for every value below 256^n |
| `WavFormat.IdsAreAscii` | app/src/main/java/com/example/meeting_mode_gemma/audio/AudioRecorder.kt:247-262 | the four chunk identifiers are the UTF-8 bytes of "RIFF", "WAVE", "fmt " and "data" |
| `WavFormat.HeaderFormatFields` | app/src/main/java/com/example/meeting_mode_gemma/audio/AudioRecorder.kt:252-259 | the fmt chunk declares size 16, PCM format 1, one channel, 16000 Hz, byte rate 32000, block align 2, 16 bits |
| `WavFormat.HeaderRoundTrip` | app/src/main/java/com/example/meeting_mode_gemma/audio/AudioRecorder.kt:243-265 | an independent reader finds the four identifiers at their offsets, the fixed format fields, and sizes 36 + L and L modulo 2^32 |
| `WavFormat.HeaderSizesExact` | app/src/main/java/com/example/meeting_mode_gemma/audio/AudioRecorder.kt:248-263 | for every non-negative data size L the reader recovers RIFF size 36 + L and data size L exactly |
| `WavFormat.SumOfSizesWraps` | app/src/main/java/com/example/meeting_mode_gemma/audio/AudioRecorder.kt:200 | the Int `sumOf` of the block sizes is the true total wrapped to 32 bits |
| `WavFormat.WavFileSizes` | app/src/main/java/com/example/meeting_mode_gemma/audio/AudioRecorder.kt:200-216 | the saved file's header declares the true payload size, and 36 more as RIFF size, modulo 2^32 |
| `WavFormat.WavFileLayout` | app/src/main/java/com/example/meeting_mode_gemma/audio/AudioRecorder.kt:214-224 | the file is the 44-byte header followed by every buffered block at its offset in capture order, and nothing else |
| `WavFormat.ThreeBlockRecording` | app/src/main/java/com/example/meeting_mode_gemma/audio/AudioRecorder.kt:243-265 | three 3200-byte blocks give data size 9600 and RIFF size 9636 |
| `AudioRecorder.CopyOfFresh` | app/src/main/java/com/example/meeting_mode_gemma/audio/AudioRecorder.kt:162-164 | copying as many bytes as the device just delivered yields exactly those bytes, with no stale scratch bytes |
| `AudioRecorder.LoopStep` | app/src/main/java/com/example/meeting_mode_gemma/audio/AudioRecorder.kt:161-175 | a positive read buffers exactly the delivered bytes and adds the count; a zero read buffers nothing and goes on |
| `AudioRecorder.LoopReportsError` | app/src/main/java/com/example/meeting_mode_gemma/audio/AudioRecorder.kt:171-174 | the loop stops on a read error exactly when some read returns a negative count |
| `AudioRecorder.LoopTotal` | app/src/main/java/com/example/meeting_mode_gemma/audio/AudioRecorder.kt:156-165 | `totalBytesRecorded` stays the Int (wrapped) sum of the sizes of the buffered blocks |
| `AudioRecorder.LoopCaptures` | app/src/main/java/com/example/meeting_mode_gemma/audio/AudioRecorder.kt:161-175 | with a well-behaved device the loop buffers exactly the delivered data of every read before the first error, in order, and keeps what it had at the error |
| `AudioRecorder.SavesFileIffDataCaptured` | app/src/main/java/com/example/meeting_mode_gemma/audio/AudioRecorder.kt:177-184 | below 2^31 bytes, a file is saved exactly when some read before the first error delivered data |
| `AudioRecorder.SaveAsWav` | app/src/main/java/com/example/meeting_mode_gemma/audio/AudioRecorder.kt:191-241 | no output file changes nothing; otherwise only the output file (set to the WAV of the blocks) and a re-created parent directory can change |
| `AudioRecorder.Start` | app/src/main/java/com/example/meeting_mode_gemma/audio/AudioRecorder.kt:35-109 | refused unchanged while recording or without permission; starts exactly when idle, permitted, the parent exists or is made, and the device starts; a start sets the flag, the loop and the output file |
| `AudioRecorder.StartRecordingAsWritten` | app/src/main/java/com/example/meeting_mode_gemma/audio/AudioRecorder.kt:93-108 | when the device's startRecording() throws, the start fails yet the flag stays set |
| `AudioRecorder.StartRecording` | app/src/main/java/com/example/meeting_mode_gemma/audio/AudioRecorder.kt:35-109 | the same checks as `Start`, and a start that reports failure leaves the flag and the loop as they were |
| `AudioRecorder.StartThrowsBlocksLaterStarts` | app/src/main/java/com/example/meeting_mode_gemma/audio/AudioRecorder.kt:36-39 | as written, after a start whose device throws, every later start is refused |
| `AudioRecorder.FailedStartAllowsRetry` | app/src/main/java/com/example/meeting_mode_gemma/audio/AudioRecorder.kt:105-108 | with the flag cleared on failure, a retry under working conditions starts |
| `AudioRecorder.StartWhileRecordingRefused` | app/src/main/java/com/example/meeting_mode_gemma/audio/AudioRecorder.kt:36-39 | a start while recording returns false and changes nothing |
| `AudioRecorder.StopRecording` | app/src/main/java/com/example/meeting_mode_gemma/audio/AudioRecorder.kt:111-125 | stop on an idle recorder is a no-op; otherwise the flag is cleared, the loop joined and the device released, and the output file is kept |
| `AudioRecorder.StartStopPreserveValid` | app/src/main/java/com/example/meeting_mode_gemma/audio/AudioRecorder.kt:93-125 | the corrected start and stop keep the invariant "a capturing device is exactly a started loop, the flag is set exactly while that loop runs, and an output file is known" |
| `AudioRecorder.AsWrittenStartBreaksValid` | app/src/main/java/com/example/meeting_mode_gemma/audio/AudioRecorder.kt:93-108 | from a recorder satisfying that invariant, the start as written keeps it exactly when the device does not throw from startRecording() after the flag was set; when it does, `isRecording` stays set with no capture loop |
| `AudioRecorder.AsWrittenStartStopConsistent` | app/src/main/java/com/example/meeting_mode_gemma/audio/AudioRecorder.kt:35-125 | what the code as written keeps: start and stop leave "a capturing device is exactly a started loop, only while recording with an output file", and a stop restores the full invariant |
| `AudioRecorder.StopWritesRecording` | app/src/main/java/com/example/meeting_mode_gemma/audio/AudioRecorder.kt:118-121 | stopping a started recorder leaves the WAV of the delivered blocks at the output path when data arrived, overwriting an earlier recording there, and the file system unchanged otherwise |
| `Processing.ProcessAudioFile` | app/src/main/java/com/example/meeting_mode_gemma/processing/AudioProcessor.kt:25-88 | a missing recording gives no chunks and no change; otherwise exactly one chunk (index 0, temp/chunk_0.wav, 0 to 30) exactly when the copy can happen, and its bytes equal the recording; a failed copy gives the empty list; nothing outside the temp directory changes |
| `Processing.CleanupTempFiles` | app/src/main/java/com/example/meeting_mode_gemma/processing/AudioProcessor.kt:90-105 | the temp directory and everything under it disappear, nothing else changes, and without a temp directory it is a no-op |
| `Processing.CleanupIdempotent` | app/src/main/java/com/example/meeting_mode_gemma/processing/AudioProcessor.kt:90-105 | cleaning twice is cleaning once |
| `Processing.CleanupKeepsArtifacts` | app/src/main/java/com/example/meeting_mode_gemma/processing/AudioProcessor.kt:91-100 | cleanup keeps the recording (unchanged), the transcript and the summary |
| `Processing.ChunkInTemp` | app/src/main/java/com/example/meeting_mode_gemma/processing/AudioProcessor.kt:53-59 | the chunk file lies strictly inside the temp directory |
| `Processing.ProcessThenCleanupRestores` | app/src/main/java/com/example/meeting_mode_gemma/processing/AudioProcessor.kt:25-105 | chunking then cleanup restores the file system when no temp directory existed before |
| `KotlinText.LinesOfJoin` | app/src/main/java/com/example/meeting_mode_gemma/processing/GemmaAudioEngine.kt:105-117 | splitting joined lines into lines gives them back when no line holds a break |
| `GemmaEngine.Create` | app/src/main/java/com/example/meeting_mode_gemma/processing/GemmaAudioEngine.kt:153-162 | a creation puts a fresh handle in its field, logs it, and touches no other field |
| `GemmaEngine.Close` | app/src/main/java/com/example/meeting_mode_gemma/processing/GemmaAudioEngine.kt:308-334 | a close nulls its field, logs the close of a live handle, and touches no other field |
| `GemmaEngine.CleanupTranscription` | app/src/main/java/com/example/meeting_mode_gemma/processing/GemmaAudioEngine.kt:308-320 | both transcription handles null, the summarisation handles untouched, only transcription closes logged |
| `GemmaEngine.CleanupSummarization` | app/src/main/java/com/example/meeting_mode_gemma/processing/GemmaAudioEngine.kt:322-334 | both summarisation handles null, the transcription handles untouched, only summarisation closes logged |
| `GemmaEngine.Cleanup` | app/src/main/java/com/example/meeting_mode_gemma/processing/GemmaAudioEngine.kt:137-141 | all four handles null, and no handle left open when none was lost before |
| `GemmaEngine.CleanupIdempotent` | app/src/main/java/com/example/meeting_mode_gemma/processing/GemmaAudioEngine.kt:137-141 | a second cleanup finds nothing to do |
| `GemmaEngine.InitPair` | app/src/main/java/com/example/meeting_mode_gemma/processing/GemmaAudioEngine.kt:143-197 | initialisation throws exactly when a creation fails, rethrowing that exception; on success both handles are live; only creations are logged; other fields are untouched |
| `GemmaEngine.InitTranscriptionAsWritten` | app/src/main/java/com/example/meeting_mode_gemma/processing/GemmaAudioEngine.kt:143-169 | a failed session creation leaves a fresh live engine in the field with the session as it was |
| `GemmaEngine.InitTranscription` | app/src/main/java/com/example/meeting_mode_gemma/processing/GemmaAudioEngine.kt:143-169 | with the catch releasing what was created, the two transcription handles end both live or both null |
| `GemmaEngine.BuilderIsConcat` | app/src/main/java/com/example/meeting_mode_gemma/processing/GemmaAudioEngine.kt:218-224 | appending partial results as they arrive builds their in-order concatenation |
| `GemmaEngine.ResultText` | app/src/main/java/com/example/meeting_mode_gemma/processing/GemmaAudioEngine.kt:199-295 | done gives the partials in order; timeout gives the timeout prefix then the partials; a callback error gives the error prefix then its message or "Unknown error in response callback"; a setup exception gives "Processing error: " then its message |
| `GemmaEngine.SummaryPrompt` | app/src/main/java/com/example/meeting_mode_gemma/processing/GemmaAudioEngine.kt:104-117 | the summarisation prompt is the trimmed instructions followed by the transcript verbatim |
| `GemmaEngine.AsWrittenHasNoCarriageReturn` | app/src/main/java/com/example/meeting_mode_gemma/processing/GemmaAudioEngine.kt:105-117 | the prompt as written holds no carriage return, whatever the transcript |
| `GemmaEngine.AsWrittenAltersTranscript` | app/src/main/java/com/example/meeting_mode_gemma/processing/GemmaAudioEngine.kt:105-117 | a transcript with a carriage return is not embedded verbatim as written, while the corrected prompt embeds it unchanged |
| `GemmaEngine.CarriageReturnExample` | app/src/main/java/com/example/meeting_mode_gemma/processing/GemmaAudioEngine.kt:105-117 | the concrete transcript "Chunk 1: hello\r\n\n\n" gives different prompts as written and corrected |
| `GemmaEngine.Retry` | app/src/main/java/com/example/meeting_mode_gemma/processing/GemmaAudioEngine.kt:61-85 | the retry fails exactly when its initialisation or read throws, carrying that exception; otherwise it returns the retry generation's text |
| `GemmaEngine.Transcribe` | app/src/main/java/com/example/meeting_mode_gemma/processing/GemmaAudioEngine.kt:31-87 | a missing file fails at once with the engine unchanged; otherwise the call fails exactly when both attempts throw, with the retry's exception; a success carries the text of the attempt that went through |
| `GemmaEngine.TranscribeAudio` | app/src/main/java/com/example/meeting_mode_gemma/processing/GemmaAudioEngine.kt:31-87 | keeps the engine invariant; a live pair of handles is reused unchanged when the first attempt goes through; a result comes from one of the two attempts |
| `GemmaEngine.InitialValid` | app/src/main/java/com/example/meeting_mode_gemma/processing/GemmaAudioEngine.kt:23-26 | a new engine has four null handles and satisfies the invariant |
| `GemmaEngine.RetryValid` | app/src/main/java/com/example/meeting_mode_gemma/processing/GemmaAudioEngine.kt:64-85 | the corrected retry re-establishes the invariant |
| `GemmaEngine.TranscribeValid` | app/src/main/java/com/example/meeting_mode_gemma/processing/GemmaAudioEngine.kt:31-87 | the corrected transcribeAudio keeps the invariant for every outcome |
| `GemmaEngine.TranscribeResultIndependent` | app/src/main/java/com/example/meeting_mode_gemma/processing/GemmaAudioEngine.kt:31-87 | the as-written and the corrected initialisation give every transcribeAudio call the same result; they differ only in the handles left behind |
| `GemmaEngine.RetryAsWrittenSettled` | app/src/main/java/com/example/meeting_mode_gemma/processing/GemmaAudioEngine.kt:64-85 | as written, the retry loses no handle and holds no summarisation handle, because it releases the transcription pair before initialising again |
| `GemmaEngine.TranscribeAsWrittenSettled` | app/src/main/java/com/example/meeting_mode_gemma/processing/GemmaAudioEngine.kt:31-87 | as written, one call from a valid engine loses no handle: each initialisation it runs starts from two null transcription handles |
| `GemmaEngine.TranscribeOnce` | app/src/main/java/com/example/meeting_mode_gemma/processing/GemmaAudioEngine.kt:31-87 | transcribeAudio as written, called once: the corrected class's result, no handle lost from a valid engine, a live pair reused when the first attempt goes through, and a result from one of the two attempts |
| `GemmaEngine.InitOverLiveEngineLeaks` | app/src/main/java/com/example/meeting_mode_gemma/processing/GemmaAudioEngine.kt:153 | as written, initialising over a live engine without a session loses the old engine, which stays open |
| `GemmaEngine.FailedSessionCreationThenLeak` | app/src/main/java/com/example/meeting_mode_gemma/processing/GemmaAudioEngine.kt:41-85 | as written, a transcription whose session creation fails twice leaves an engine without a session, and the next call leaks it |
| `GemmaEngine.TranscriptionInitLeaks` | app/src/main/java/com/example/meeting_mode_gemma/processing/GemmaAudioEngine.kt:41-43 | the concrete case from a new engine: two calls, and a handle is lost |
| `GemmaEngine.SummaryBody` | app/src/main/java/com/example/meeting_mode_gemma/processing/GemmaAudioEngine.kt:99-123 | fails exactly when summarisation initialisation throws, with its exception; otherwise the summary text, with the prompt (as written, or corrected) queried last; transcription handles untouched and never closed here |
| `GemmaEngine.GenerateSummary` | app/src/main/java/com/example/meeting_mode_gemma/processing/GemmaAudioEngine.kt:92-132 | fails exactly when initialisation fails; all handles null afterwards; every transcription close precedes every summarisation creation; the prompt (as written, or corrected) is queried exactly on success; an engine that lost nothing and holds no summarisation handle ends valid |
| `GemmaEngine.SummaryLog` | app/src/main/java/com/example/meeting_mode_gemma/processing/GemmaAudioEngine.kt:96-131 | the log of release, body and finally-release has the transcription closes first and holds the query exactly on success |
| `MeetingOrder.InsertCounts` | app/src/main/java/com/example/meeting_mode_gemma/ui/MeetingViewModel.kt:358 | one insertion step adds exactly that session |
| `MeetingOrder.InsertSorted` | app/src/main/java/com/example/meeting_mode_gemma/ui/MeetingViewModel.kt:358 | inserting into a newest-first list keeps it newest-first |
| `MeetingOrder.SortByTimestampDesc` | app/src/main/java/com/example/meeting_mode_gemma/ui/MeetingViewModel.kt:358 | the result is newest-first and a permutation of the input |
| `MeetingOrder.InsertStable` | app/src/main/java/com/example/meeting_mode_gemma/ui/MeetingViewModel.kt:358 | an inserted session goes after those with the same timestamp |
| `MeetingOrder.SortStable` | app/src/main/java/com/example/meeting_mode_gemma/ui/MeetingViewModel.kt:358 | sessions with equal timestamps keep their listing order |
| `MeetingViewModel.AudioFileParent` | app/src/main/java/com/example/meeting_mode_gemma/ui/MeetingViewModel.kt:366-375 | the recording's parent directory is the session directory the view model creates |
| `MeetingViewModel.StartRecording` | app/src/main/java/com/example/meeting_mode_gemma/ui/MeetingViewModel.kt:99-150 | a directory that cannot be made gives ERROR with the storage message and no recorder call; RECORDING exactly when the directory is there and the recorder starts, with the new session current; a refusal gives ERROR with the recorder message; the recorder runs as written, so a device that throws from startRecording() after permission was granted leaves the recorder's flag set, and any other refusal leaves it as it was |
| `MeetingViewModel.FailedStartBlocksNextMeeting` | app/src/main/java/com/example/meeting_mode_gemma/ui/MeetingViewModel.kt:99-150 | after a start whose device throws, the user sees the recorder error, and the next start shows it again (or the storage error) with the recorder unchanged: no later meeting can be recorded until stopRecording |
| `MeetingViewModel.DismissCompletedDialog` | app/src/main/java/com/example/meeting_mode_gemma/ui/MeetingViewModel.kt:300-302 | hides the dialog and changes no other field |
| `MeetingViewModel.EntriesAppend` | app/src/main/java/com/example/meeting_mode_gemma/ui/MeetingViewModel.kt:221-238 | one more chunk's result adds its entry, numbered by its position, at the end of the transcript |
| `MeetingViewModel.EntryStartsWithLabel` | app/src/main/java/com/example/meeting_mode_gemma/ui/MeetingViewModel.kt:227-235 | every entry, success or failure, starts with "Chunk " and is not blank |
| `MeetingViewModel.TranscriptNotBlank` | app/src/main/java/com/example/meeting_mode_gemma/ui/MeetingViewModel.kt:243-247 | a transcript of at least one chunk is never blank |
| `MeetingViewModel.LoadedSessions` | app/src/main/java/com/example/meeting_mode_gemma/ui/MeetingViewModel.kt:337-357 | a session is loaded exactly for each listed meeting_ directory that holds a recording |
| `MeetingViewModel.LoadCompletedMeetings` | app/src/main/java/com/example/meeting_mode_gemma/ui/MeetingViewModel.kt:327-364 | nothing happens exactly when the storage directory is missing; a non-directory gives the empty list; otherwise exactly the meeting directories, as a newest-first permutation of the loaded sessions |
| `MeetingViewModel.LoadedSessionShape` | app/src/main/java/com/example/meeting_mode_gemma/ui/MeetingViewModel.kt:339-357 | a loaded session has create's layout in its folder, the folder name as id, and is COMPLETED exactly when summary.txt exists, PROCESSING_AUDIO otherwise |
| `MeetingViewModel.ProgressiveOrdered` | app/src/main/java/com/example/meeting_mode_gemma/data/MeetingSession.kt:40-47 | in a sequence whose neighbours never move back in status order, no later state precedes an earlier one |
| `MeetingViewModel.OrderedProgressive` | app/src/main/java/com/example/meeting_mode_gemma/data/MeetingSession.kt:40-47 | conversely, pairwise ordered statuses never move back between neighbours |
| `MeetingViewModel.Fail` | app/src/main/java/com/example/meeting_mode_gemma/ui/MeetingViewModel.kt:284-296 | the catch block gives ERROR with "Processing failed: " and the message, processing off; the finally block releases every handle; files, recorder and recording fields untouched |
| `MeetingViewModel.SummaryFileTextCases` | app/src/main/java/com/example/meeting_mode_gemma/ui/MeetingViewModel.kt:253-262 | summary.txt holds the summary verbatim on success, and on failure the failure note followed by the whole transcript |
| `MeetingViewModel.ChunkUpdates` | app/src/main/java/com/example/meeting_mode_gemma/ui/MeetingViewModel.kt:221-222 | one announcement per chunk, the k-th naming chunk k + 1 of the count |
| `MeetingViewModel.TranscribeChunks` | app/src/main/java/com/example/meeting_mode_gemma/ui/MeetingViewModel.kt:214-238 | the transcript is reset and then holds exactly one entry per chunk in order, failures included; each result comes from its chunk's attempts through transcribeAudio as written; no other file changes; with at most one chunk no handle is lost |
| `MeetingViewModel.SaveSummary` | app/src/main/java/com/example/meeting_mode_gemma/ui/MeetingViewModel.kt:253-265 | summary.txt holds the text, the temp directory is gone, recording and transcript are unchanged |
| `MeetingViewModel.Refresh` | app/src/main/java/com/example/meeting_mode_gemma/ui/MeetingViewModel.kt:282 | the reload after a completed run replaces only the meeting list, with what loadCompletedMeetings finds |
| `MeetingViewModel.Summarize` | app/src/main/java/com/example/meeting_mode_gemma/ui/MeetingViewModel.kt:253-296 | generateSummary with the prompt as written: the summary or the initialisation failure, every field null, and no handle open when none was lost before |
| `MeetingViewModel.Finish` | app/src/main/java/com/example/meeting_mode_gemma/ui/MeetingViewModel.kt:249-282 | the update after the earlier ones is SUMMARIZING with "Generating meeting summary...", and the one after that is COMPLETED with "Processing complete!"; summary.txt per the outcome; temp gone; recording and transcript kept; every field null, and no handle open when none was lost before |
| `MeetingViewModel.TranscribePhase` | app/src/main/java/com/example/meeting_mode_gemma/ui/MeetingViewModel.kt:214-247 | TRANSCRIBING with one entry per chunk, a non-blank transcript, and the recording untouched; for one chunk from a valid engine no handle is lost |
| `MeetingViewModel.Transcribe` | app/src/main/java/com/example/meeting_mode_gemma/ui/MeetingViewModel.kt:214-282 | with at least one chunk the run always completes, with the transcript, summary and cleanup a completed run promises; a TRANSCRIBING update is followed by a SUMMARIZING one, and the status never moves back; for one chunk from a valid engine nothing stays open |
| `MeetingViewModel.ChunkingUi` | app/src/main/java/com/example/meeting_mode_gemma/ui/MeetingViewModel.kt:205 | the "Creating audio chunks..." update changes only the message |
| `MeetingViewModel.NoChunksRun` | app/src/main/java/com/example/meeting_mode_gemma/ui/MeetingViewModel.kt:206-210 | no chunks ends in ERROR with "No audio chunks created", no summary, and the chunking's file system |
| `MeetingViewModel.ChunksRun` | app/src/main/java/com/example/meeting_mode_gemma/ui/MeetingViewModel.kt:206-282 | with chunks the run completes as a completed run over those chunks, after TRANSCRIBING and then SUMMARIZING updates; with one chunk from a valid engine nothing stays open |
| `MeetingViewModel.ProcessChunks` | app/src/main/java/com/example/meeting_mode_gemma/ui/MeetingViewModel.kt:204-292 | COMPLETED exactly when chunking produced chunks, after TRANSCRIBING and then SUMMARIZING updates, and ERROR otherwise; with at most one chunk a run from a valid engine leaves nothing open |
| `MeetingViewModel.StartBackgroundProcessing` | app/src/main/java/com/example/meeting_mode_gemma/ui/MeetingViewModel.kt:173-298 | a missing recording gives ERROR with its message and no file change; COMPLETED exactly when the recording exists and chunking succeeds, and a completed run published TRANSCRIBING and then SUMMARIZING; no chunks gives ERROR and leaves the temp directory; every run ends with processing off, every field null, nothing open when the engine started valid (chunking makes at most one chunk), and a status that never moved back |
| `MeetingViewModel.ProcessingUi` | app/src/main/java/com/example/meeting_mode_gemma/ui/MeetingViewModel.kt:156-164 | the state published on stop: not recording, processing, PROCESSING_AUDIO, its message, dialog shown |
| `MeetingViewModel.StopRecording` | app/src/main/java/com/example/meeting_mode_gemma/ui/MeetingViewModel.kt:152-171 | the recorder is stopped; without a session the state stays PROCESSING_AUDIO; with one the run ends COMPLETED or ERROR with handles released; the first update is PROCESSING_AUDIO, a COMPLETED run passed through TRANSCRIBING and then SUMMARIZING, and the status never moves back |

## Left out

- Storage discovery and `SharedPreferences` (`initializeStorage`, `getAppDirectory`,
  `MeetingViewModel.kt:51-97, 377-388`). The storage directory is a parameter of each operation.
  Paths are assumed absolute and normalised.
- `getStorageLocationForUI`, `openMeetingSummary` (only logging and a read whose result is
  discarded) and `onCleared` (a call to `cleanup`, modelled as `GemmaEngine.Cleanup`).
- Threads, `AtomicBoolean`, `CountDownLatch`, coroutines and `StateFlow`. The capture thread runs
  to completion when `stopRecording` joins it: the device's read results before the flag was
  seen are an input. Each `_uiState.update` is one replacement of an immutable record.
- The MediaPipe runtime: model execution, token limits, top-k/top-p/temperature, the audio bytes
  handed to `addAudio`, and the 120 s / 180 s deadlines. Each generation's outcome (done, timed
  out, callback error, setup exception) is an input.
- `close()` on a model handle is assumed not to throw. The catch blocks of the cleanup functions
  are therefore not modelled.
- I/O failures of `writeText`, `appendText`, `readText` and `FileOutputStream.write`. The copy
  of the chunk can fail (an input), and so can reading the chunk file in `transcribeAudio`.
- Text files hold decoded strings. No UTF-8 encoding is modelled, and `mkdirs` creates one
  directory level.
- `SimpleDateFormat` and `Locale`: the formatted folder suffix is an uninterpreted input, and so
  is `System.currentTimeMillis()`. `getDisplayName` and all logging are left out.
- `AudioRecord.getMinBufferSize` and the permission check are inputs.
- The `Float` chunk times are the whole numbers 0 and 30. `CHUNK_DURATION_SECONDS` and
  `OVERLAP_SECONDS` are unused by the code and are not modelled.
- `MeetingViewModel.StartBackgroundProcessing`: the effect of the `finally` cleanup is stated
  (every handle null, nothing left open). The number of `cleanup` calls is not stated;
  `GemmaEngine.CleanupIdempotent` makes a second call unobservable.
- `GemmaEngine.TranscribeAudio`: the engine invariant and the reuse of live handles are proved for
  the corrected initialisation only. The as-written initialisation breaks the invariant (see
  Findings). The view model runs the as-written class through `GemmaEngine.TranscribeOnce`.
- `MeetingViewModel.TranscribeChunks`: no handle is lost is stated for at most one chunk. From a
  second chunk on, the class as written can initialise over a live engine and lose it (Findings,
  row 3). `processAudioFile` never makes more than one chunk.
- `MeetingViewModel.TranscribePhase`: the same bound; the handle clause is stated for one chunk.
- `MeetingViewModel.Transcribe`: the same bound; nothing open is stated for one chunk.
- `MeetingViewModel.ChunksRun`: the same bound; nothing open is stated for one chunk.
- `MeetingViewModel.ProcessChunks`: the same bound; nothing open is stated for at most one chunk.
- `AudioRecorder.SavesFileIffDataCaptured`: stated for recordings below 2^31 bytes. Beyond that,
  the Int total wraps, and whether a file is written depends on the wrapped sign.
- `MeetingViewModel.LoadCompletedMeetings`: the listing order of `listFiles()` is an input, and
  the per-directory work runs sequentially.

## Findings

| source | as written | input that shows it | evidently intended | confidence | as-written member | corrected member |
|---|---|---|---|---|---|---|
| app/src/main/java/com/example/meeting_mode_gemma/audio/AudioRecorder.kt:93-108 | `isRecording` is set before `audioRecord.startRecording()`, and the catch block returns false without clearing it | an idle recorder with permission and an existing parent directory, whose device constructs but throws from `startRecording()` | a failed start leaves the recorder idle, so a later start can succeed | not executed | `AudioRecorder.StartRecordingAsWritten`, shown by `AudioRecorder.StartThrowsBlocksLaterStarts`; the view model's `MeetingViewModel.StartRecording` runs it, and `MeetingViewModel.FailedStartBlocksNextMeeting` shows the effect on the app | `AudioRecorder.StartRecording`, with `AudioRecorder.FailedStartAllowsRetry` and `AudioRecorder.StartStopPreserveValid` (the as-written start breaks that invariant, `AudioRecorder.AsWrittenStartBreaksValid`) |
| app/src/main/java/com/example/meeting_mode_gemma/processing/GemmaAudioEngine.kt:105-117 | `trimIndent()` runs after the transcript is interpolated, so `lines()` re-splits the transcript and re-joins it with `"\n"` | the transcript `"Chunk 1: hello\r\n\n\n"`, one chunk whose reply ended with a Windows line break | the prompt embeds the full transcript verbatim | not executed | `GemmaEngine.SummaryPromptAsWritten`, shown by `GemmaEngine.AsWrittenAltersTranscript` and `GemmaEngine.CarriageReturnExample`; the view model's `MeetingViewModel.Summarize` sends it | `GemmaEngine.SummaryPrompt`, queried by `GemmaEngine.SummaryBody` and `GemmaEngine.GenerateSummary` when `corrected` holds |
| app/src/main/java/com/example/meeting_mode_gemma/processing/GemmaAudioEngine.kt:143-169 | `transcriptionEngine` is assigned before the session is created. A failed session creation leaves the engine live with no session. The next call's initialisation (line 41-43) overwrites the field without closing the old engine | a new engine, a `transcribeAudio` call whose session creation fails on both attempts, then a call whose initialisation succeeds. The app's view model cannot produce this sequence: a run has at most one chunk, and `generateSummary` and the `finally` cleanup release every handle before the next run's first call (`GemmaEngine.TranscribeAsWrittenSettled`) | initialisation leaves both handles live or both null, and no handle is lost | not executed | `GemmaEngine.InitTranscriptionAsWritten`, shown by `GemmaEngine.FailedSessionCreationThenLeak` and `GemmaEngine.TranscriptionInitLeaks` | `GemmaEngine.InitTranscription`, with `GemmaEngine.TranscribeAudio` and `GemmaEngine.TranscribeValid` |
