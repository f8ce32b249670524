/** MeetingViewModel: the UI-state record and the orchestration around it — starting and stopping a
    recording, the background pipeline (check, chunk, transcribe chunk by chunk into an append-only
    transcript, summarise, clean up), and the listing of past meetings. Coroutines run to completion
    in program order; every `_uiState.update` is one entry of the run's update list. */
module MeetingViewModel {
  import opened Base
  import opened Files
  import opened Sessions
  import opened Processing
  import opened MeetingOrder
  import Rec = AudioRecorder
  import Gemma = GemmaEngine

  datatype UiState = UiState(
    isRecording: bool,
    isProcessing: bool,
    currentStatus: MeetingStatus,
    processingMessage: string,
    currentSession: Option<MeetingSession>,
    completedMeetings: seq<MeetingSession>,
    showCompletedDialog: bool)

  /** MeetingUiState(): the defaults of the data class. */
  const InitialUi: UiState := UiState(false, false, Recording, "", None, [], false)

  /** The view model's world: the UI state, the recorder, the engine and the file system. The
      storage directory is a parameter of each operation. */
  datatype App = App(ui: UiState, recorder: Rec.Recorder, engine: Gemma.Engine, fs: FileSystem)

  const StorageErrorMessage: string := "Failed to create recording directory. Storage not accessible."
  const RecorderErrorMessage: string := "Failed to start recording. Check permissions."
  /** The prefix of every processing failure shown to the user, and the two failures the
      background run reports itself. */
  const FailurePrefix: string := "Processing failed: "
  const MissingAudioPrefix: string := "Audio file was not created at: "
  const NoChunksMessage: string := "No audio chunks created"

  // ---------------------------------------------------------------------------
  // startRecording / stopRecording / dismissCompletedDialog
  // ---------------------------------------------------------------------------

  /** The recording file lives in the session directory, so the recorder finds its parent there. */
  lemma AudioFileParent(appDir: Path, s: MeetingSession)
    ensures ParentOf(AudioFile(appDir, s)) == Some(SessionDirectory(appDir, s))
  {
    FileNamesPlain();
    ParentOfChild(SessionDirectory(appDir, s), AudioFileName);
  }

  /** startRecording: create the session (at `timestamp`, formatted as `formatted`), make its
      directory (`mkdirsSucceeds` is what mkdirs reports), then start the recorder, as it is
      written, on the session's audio file. Three outcomes: storage error without touching the
      recorder, recorder refusal, or recording. A refusal leaves the recorder's flag as it was,
      except when permission was granted and the device throws from startRecording(): then the
      flag stays set. */
  function StartRecording(app: App, appDir: Path, timestamp: int, formatted: string, mkdirsSucceeds: bool,
                          env: Rec.StartEnv): (r: App)
    ensures var dir := SessionDirectory(appDir, Create(timestamp, formatted));
      dir !in app.fs && !mkdirsSucceeds ==>
        r.recorder == app.recorder && r.fs == app.fs
        && r.ui.currentStatus == Error && r.ui.processingMessage == StorageErrorMessage
    ensures var dir := SessionDirectory(appDir, Create(timestamp, formatted));
      r.ui.currentStatus == Recording <==>
        (dir in app.fs || mkdirsSucceeds) && !app.recorder.recording && env.permissionGranted && env.device == Rec.Started
    ensures r.ui.currentStatus == Recording ==>
      r.ui.isRecording && r.ui.currentSession == Some(Create(timestamp, formatted)) && r.ui.processingMessage == ""
      && r.recorder.recording && r.recorder.outputFile == Some(AudioFile(appDir, Create(timestamp, formatted)))
    ensures var dir := SessionDirectory(appDir, Create(timestamp, formatted));
      (dir in app.fs || mkdirsSucceeds) && r.ui.currentStatus != Recording ==>
        r.ui.currentStatus == Error && r.ui.processingMessage == RecorderErrorMessage
        && (env.device != Rec.StartThrows || !env.permissionGranted ==> r.recorder.recording == app.recorder.recording)
        && (env.device == Rec.StartThrows && env.permissionGranted ==> r.recorder.recording)
    ensures r.ui.isProcessing == app.ui.isProcessing && r.ui.completedMeetings == app.ui.completedMeetings
    ensures r.ui.showCompletedDialog == app.ui.showCompletedDialog && r.engine == app.engine
  {
    var session := Create(timestamp, formatted);
    var dir := SessionDirectory(appDir, session);
    if dir !in app.fs && !mkdirsSucceeds then
      app.(ui := app.ui.(currentStatus := Error, processingMessage := StorageErrorMessage))
    else
      var fs1 := if dir in app.fs then app.fs else app.fs[dir := Directory];
      AudioFileParent(appDir, session);
      var res := Rec.StartRecordingAsWritten(app.recorder, fs1, AudioFile(appDir, session), env);
      var ui := if res.started then
          app.ui.(isRecording := true, currentSession := Some(session), currentStatus := Recording, processingMessage := "")
        else app.ui.(currentStatus := Error, processingMessage := RecorderErrorMessage);
      App(ui, res.recorder, app.engine, res.fs)
  }

  /** A start whose device throws from startRecording() shows the recorder error, and so does every
      later start, whatever the platform then answers, until stopRecording clears the flag: the
      next meeting cannot be recorded. */
  lemma FailedStartBlocksNextMeeting(app: App, appDir: Path, t1: int, f1: string, m1: bool, env1: Rec.StartEnv,
                                     t2: int, f2: string, m2: bool, env2: Rec.StartEnv)
    requires !app.recorder.recording && env1.permissionGranted && env1.device == Rec.StartThrows
    requires SessionDirectory(appDir, Create(t1, f1)) in app.fs || m1
    ensures var a1 := StartRecording(app, appDir, t1, f1, m1, env1);
      && a1.ui.currentStatus == Error && a1.ui.processingMessage == RecorderErrorMessage
      && a1.recorder.recording
      && var a2 := StartRecording(a1, appDir, t2, f2, m2, env2);
      && a2.ui.currentStatus == Error
      && a2.ui.processingMessage == (if SessionDirectory(appDir, Create(t2, f2)) in a1.fs || m2 then RecorderErrorMessage else StorageErrorMessage)
      && a2.recorder == a1.recorder
  {
    var a1 := StartRecording(app, appDir, t1, f1, m1, env1);
    var a2 := StartRecording(a1, appDir, t2, f2, m2, env2);
    if SessionDirectory(appDir, Create(t2, f2)) in a1.fs || m2 {
      var s2 := Create(t2, f2);
      var dir := SessionDirectory(appDir, s2);
      var fs1 := if dir in a1.fs then a1.fs else a1.fs[dir := Directory];
      assert Rec.StartRecordingAsWritten(a1.recorder, fs1, AudioFile(appDir, s2), env2)
        == Rec.StartResult(a1.recorder, fs1, false);
    }
  }

  /** dismissCompletedDialog: hides the dialog and changes nothing else. */
  function DismissCompletedDialog(ui: UiState): (r: UiState)
    ensures !r.showCompletedDialog
    ensures r.isRecording == ui.isRecording && r.isProcessing == ui.isProcessing
    ensures r.currentStatus == ui.currentStatus && r.processingMessage == ui.processingMessage
    ensures r.currentSession == ui.currentSession && r.completedMeetings == ui.completedMeetings
  {
    ui.(showCompletedDialog := false)
  }

  // ---------------------------------------------------------------------------
  // The transcript
  // ---------------------------------------------------------------------------

  /** The line appended for chunk `index` (zero-based) once its transcription returns. */
  function ChunkEntry(index: nat, r: Result<string>): string {
    var body := match r
      case Success(text) => text
      case Failure(e) => "[Transcription failed: " + MessageText(e) + "]";
    "Chunk " + NatToString(index + 1) + ": " + body + "\n\n"
  }

  /** The entries for the results of chunks `from`, `from + 1`, ... in order. */
  function Entries(results: seq<Result<string>>, from: nat): string {
    if |results| == 0 then "" else ChunkEntry(from, results[0]) + Entries(results[1..], from + 1)
  }

  lemma {:induction false} EntriesAppend(results: seq<Result<string>>, from: nat, r: Result<string>)
    ensures Entries(results + [r], from) == Entries(results, from) + ChunkEntry(from + |results|, r)
  {
    if |results| == 0 {
      assert results + [r] == [r];
    } else {
      assert (results + [r])[1..] == results[1..] + [r];
      EntriesAppend(results[1..], from + 1, r);
    }
  }

  /** Each entry begins with "Chunk ", whatever the model answered. */
  lemma EntryStartsWithLabel(index: nat, r: Result<string>)
    ensures StartsWith(ChunkEntry(index, r), "Chunk ")
    ensures !IsBlank(ChunkEntry(index, r))
  {
    var s := ChunkEntry(index, r);
    assert s[..6] == "Chunk ";
    NotBlankWitness(s, 0);
  }

  /** A transcript of at least one chunk is never blank, so the "No transcription content" branch
      cannot be taken. */
  lemma TranscriptNotBlank(results: seq<Result<string>>, from: nat)
    requires |results| >= 1
    ensures !IsBlank(Entries(results, from))
  {
    EntryStartsWithLabel(from, results[0]);
    NotBlankConcat(ChunkEntry(from, results[0]), Entries(results[1..], from + 1));
  }

  function TranscribingMessage(index: nat, count: nat): string {
    "Transcribing chunk " + NatToString(index + 1) + "/" + NatToString(count) + "..."
  }

  // ---------------------------------------------------------------------------
  // loadCompletedMeetings
  // ---------------------------------------------------------------------------

  /** A listed entry counts as a past meeting: a directory named "meeting_..." holding a recording. */
  predicate IsMeetingDir(fs: FileSystem, appDir: Path, name: string) {
    var dir := Child(appDir, name);
    dir in fs && fs[dir].Directory? && StartsWith(name, FolderPrefix) && Child(dir, AudioFileName) in fs
  }

  /** The session rebuilt from a meeting directory: the folder name doubles as the id, the
      recording's modification time (`lastModified`) is the timestamp, and the status says whether
      a summary exists. */
  function LoadedSession(fs: FileSystem, appDir: Path, name: string, lastModified: Path -> int): MeetingSession {
    var dir := Child(appDir, name);
    Artifacts(name, if Child(dir, SummaryFileName) in fs then Completed else ProcessingAudio, name,
              lastModified(Child(dir, AudioFileName)))
  }

  /** filter { ... } .mapNotNull { ... } over the listing, in listing order. */
  function LoadedSessions(fs: FileSystem, appDir: Path, names: seq<string>, lastModified: Path -> int): (ms: seq<MeetingSession>)
    ensures forall m :: m in ms <==>
      exists k :: 0 <= k < |names| && IsMeetingDir(fs, appDir, names[k]) && m == LoadedSession(fs, appDir, names[k], lastModified)
  {
    if |names| == 0 then []
    else
      var rest := LoadedSessions(fs, appDir, names[1..], lastModified);
      assert forall m :: ((exists k :: 1 <= k < |names| && IsMeetingDir(fs, appDir, names[k]) && m == LoadedSession(fs, appDir, names[k], lastModified))
                          <==> m in rest) by {
        forall m ensures (exists k :: 1 <= k < |names| && IsMeetingDir(fs, appDir, names[k]) && m == LoadedSession(fs, appDir, names[k], lastModified))
          <==> m in rest
        {
          if m in rest {
            var k :| 0 <= k < |names| - 1 && IsMeetingDir(fs, appDir, names[1..][k]) && m == LoadedSession(fs, appDir, names[1..][k], lastModified);
            assert names[k + 1] == names[1..][k];
          }
          if exists k :: 1 <= k < |names| && IsMeetingDir(fs, appDir, names[k]) && m == LoadedSession(fs, appDir, names[k], lastModified) {
            var k :| 1 <= k < |names| && IsMeetingDir(fs, appDir, names[k]) && m == LoadedSession(fs, appDir, names[k], lastModified);
            assert names[1..][k - 1] == names[k];
          }
        }
      }
      if IsMeetingDir(fs, appDir, names[0]) then [LoadedSession(fs, appDir, names[0], lastModified)] + rest else rest
  }

  /** loadCompletedMeetings: None when the storage directory does not exist (the state is left
      alone); an empty list when it is not a directory (listFiles() is null); otherwise the meeting
      directories of the listing `names`, newest recording first. */
  function LoadCompletedMeetings(fs: FileSystem, appDir: Path, names: seq<string>, lastModified: Path -> int): (r: Option<seq<MeetingSession>>)
    ensures r.None? <==> appDir !in fs
    ensures r.Some? && !fs[appDir].Directory? ==> r.value == []
    ensures r.Some? && fs[appDir].Directory? ==> forall m :: m in r.value <==>
      exists k :: 0 <= k < |names| && IsMeetingDir(fs, appDir, names[k]) && m == LoadedSession(fs, appDir, names[k], lastModified)
    ensures r.Some? ==> SortedDesc(r.value)
    ensures r.Some? && fs[appDir].Directory? ==>
      multiset(r.value) == multiset(LoadedSessions(fs, appDir, names, lastModified))
  {
    if appDir !in fs then None
    else if !fs[appDir].Directory? then Some([])
    else
      var ms := LoadedSessions(fs, appDir, names, lastModified);
      var sorted := SortByTimestampDesc(ms);
      assert forall m :: m in sorted <==> m in multiset(sorted);
      assert forall m :: m in ms <==> m in multiset(ms);
      Some(sorted)
  }

  /** Every loaded session is laid out as MeetingSession.create lays out a session in that folder,
      its id is the folder name, and it is COMPLETED exactly when the folder holds a summary. */
  lemma LoadedSessionShape(fs: FileSystem, appDir: Path, name: string, lastModified: Path -> int)
    requires IsMeetingDir(fs, appDir, name)
    ensures var m := LoadedSession(fs, appDir, name, lastModified);
      && m == Artifacts(m.folderName, m.status, m.sessionId, m.timestamp)
      && m.sessionId == m.folderName == name
      && StartsWith(m.folderName, FolderPrefix)
      && (m.status == Completed <==> SummaryFile(appDir, m) in fs)
      && (m.status == Completed || m.status == ProcessingAudio)
      && AudioFile(appDir, m) in fs
  {
  }

  // ---------------------------------------------------------------------------
  // startBackgroundProcessing
  // ---------------------------------------------------------------------------

  /** The environment's answers during one background run: whether the chunk copy fails, the engine's
      answers per chunk, how summarisation initialises and generates, and what the listing and
      file times of the storage directory are afterwards. */
  datatype ProcessEnv = ProcessEnv(
    copyFault: bool,
    attempts: nat -> Gemma.Attempts,
    summaryInit: Gemma.InitOutcome,
    summaryGeneration: Gemma.Generation,
    listing: seq<string>,
    lastModified: Path -> int)

  /** A finished run: the final world, every UI update in order, the per-chunk results, and the
      summarisation result when the run got that far. */
  datatype Run = Run(app: App, updates: seq<UiState>, results: seq<Result<string>>, summary: Option<Result<string>>)

  function LastUi(ui: UiState, updates: seq<UiState>): UiState {
    if |updates| == 0 then ui else updates[|updates| - 1]
  }

  /** The status never moves back: each update's status comes no earlier in MeetingStatus's order
      than the one before it. */
  predicate Progressive(us: seq<UiState>)
    decreases |us|
  {
    |us| <= 1 || (Ordinal(us[0].currentStatus) <= Ordinal(us[1].currentStatus) && Progressive(us[1..]))
  }

  /** Ordered neighbours order every pair. */
  lemma {:induction false} ProgressiveOrdered(us: seq<UiState>, i: nat, j: nat)
    requires Progressive(us) && i < j < |us|
    ensures Ordinal(us[i].currentStatus) <= Ordinal(us[j].currentStatus)
    decreases j, j - i
  {
    if i + 1 < j {
      ProgressiveOrdered(us, i, j - 1);
      ProgressiveOrdered(us, j - 1, j);
    } else if i > 0 {
      ProgressiveOrdered(us[1..], i - 1, j - 1);
    }
  }

  /** And ordered pairs make the sequence progressive. */
  lemma {:induction false} OrderedProgressive(us: seq<UiState>)
    requires forall i, j :: 0 <= i < j < |us| ==> Ordinal(us[i].currentStatus) <= Ordinal(us[j].currentStatus)
    ensures Progressive(us)
    decreases |us|
  {
    if |us| > 1 {
      var vs := us[1..];
      forall i, j | 0 <= i < j < |vs| ensures Ordinal(vs[i].currentStatus) <= Ordinal(vs[j].currentStatus) {
        assert vs[i] == us[i + 1] && vs[j] == us[j + 1];
      }
      OrderedProgressive(vs);
    }
  }

  lemma {:induction false} ProgressiveCons(u: UiState, us: seq<UiState>)
    requires Progressive(us)
    requires |us| == 0 || Ordinal(u.currentStatus) <= Ordinal(us[0].currentStatus)
    ensures Progressive([u] + us)
  {
    assert ([u] + us)[1..] == us;
  }

  lemma {:induction false} ProgressiveSnoc(us: seq<UiState>, u: UiState)
    requires Progressive(us)
    requires |us| == 0 || Ordinal(us[|us| - 1].currentStatus) <= Ordinal(u.currentStatus)
    ensures Progressive(us + [u])
    decreases |us|
  {
    if |us| >= 2 {
      assert (us + [u])[1..] == us[1..] + [u];
      ProgressiveSnoc(us[1..], u);
    } else if |us| == 1 {
      assert (us + [u])[1..] == [u];
    }
  }

  /** A run of updates that all carry the last status keeps the order. */
  lemma {:induction false} ProgressiveThenSame(us: seq<UiState>, vs: seq<UiState>)
    requires Progressive(us) && |us| >= 1
    requires forall k :: 0 <= k < |vs| ==> vs[k].currentStatus == us[|us| - 1].currentStatus
    ensures Progressive(us + vs)
    ensures |vs| >= 1 ==> (us + vs)[|us + vs| - 1].currentStatus == us[|us| - 1].currentStatus
    decreases |vs|
  {
    if |vs| >= 1 {
      ProgressiveSnoc(us, vs[0]);
      assert us + vs == (us + [vs[0]]) + vs[1..];
      ProgressiveThenSame(us + [vs[0]], vs[1..]);
    } else {
      assert us + vs == us;
    }
  }

  /** Some update with status TRANSCRIBING is followed, later on, by one with status SUMMARIZING. */
  predicate TranscribedThenSummarized(us: seq<UiState>) {
    exists i, j :: 0 <= i < j < |us| && us[i].currentStatus == Transcribing && us[j].currentStatus == Summarizing
  }

  /** Updates published earlier do not undo it. */
  lemma TranscribedThenSummarizedAfter(vs: seq<UiState>, us: seq<UiState>)
    requires TranscribedThenSummarized(us)
    ensures TranscribedThenSummarized(vs + us)
  {
    var i, j :| 0 <= i < j < |us| && us[i].currentStatus == Transcribing && us[j].currentStatus == Summarizing;
    assert (vs + us)[|vs| + i] == us[i] && (vs + us)[|vs| + j] == us[j];
  }

  /** Processing never touches the recording flag, the dialog flag or the current session. */
  predicate SameRecordingFields(a: UiState, b: UiState) {
    a.isRecording == b.isRecording && a.showCompletedDialog == b.showCompletedDialog && a.currentSession == b.currentSession
  }

  /** The catch block and the finally block: ERROR with the exception's message, engine released. */
  method Fail(app: App, updates: seq<UiState>, engine: Gemma.Engine, fs: FileSystem, message: string) returns (r: Run)
    ensures r.app.ui.currentStatus == Error && !r.app.ui.isProcessing
    ensures r.app.ui.processingMessage == FailurePrefix + message
    ensures SameRecordingFields(r.app.ui, LastUi(app.ui, updates))
    ensures Gemma.AllNull(r.app.engine) && r.app.fs == fs && r.app.recorder == app.recorder
    ensures Gemma.Accounted(engine) ==> Gemma.Open(r.app.engine.log) == {}
    ensures r.updates == updates + [r.app.ui] && r.results == [] && r.summary == None
    ensures Progressive(updates) ==> Progressive(r.updates)
  {
    var u := LastUi(app.ui, updates).(isProcessing := false, currentStatus := Error, processingMessage := FailurePrefix + message);
    if Progressive(updates) {
      ProgressiveSnoc(updates, u);
    }
    r := Run(App(u, app.recorder, Gemma.Cleanup(engine), fs), updates + [u], [], None);
  }

  /** What summary.txt receives: the summary, or the failure note followed by the transcript. */
  function SummaryFileText(r: Result<string>, transcript: string): string {
    match r
    case Success(summary) => summary
    case Failure(e) => "Summary generation failed: " + MessageText(e) + "\n\nTranscription:\n" + transcript
  }

  /** The summary file's content pins down the outcome: the fallback text exactly when summarisation
      failed, carrying the whole transcript at its end. */
  lemma SummaryFileTextCases(init: Gemma.InitOutcome, g: Gemma.Generation, transcript: string)
    ensures init.InitOk? ==> SummaryFileText(Success(Gemma.TextResultText(g)), transcript) == Gemma.TextResultText(g)
    ensures !init.InitOk? ==>
      var text := SummaryFileText(Failure(init.error), transcript);
      var prefix := "Summary generation failed: " + MessageText(init.error) + "\n\nTranscription:\n";
      |prefix| <= |text| && text[..|prefix|] == prefix && text[|prefix|..] == transcript
  {
  }

  /** One more result taken from its chunk's attempts keeps every result so. */
  lemma FromAttemptsStep(results: seq<Result<string>>, r: Result<string>, attempts: nat -> Gemma.Attempts)
    requires forall k :: 0 <= k < |results| ==> Gemma.FromAttempts(results[k], attempts(k))
    requires Gemma.FromAttempts(r, attempts(|results|))
    ensures forall k :: 0 <= k < |results| + 1 ==> Gemma.FromAttempts((results + [r])[k], attempts(k))
  {
  }

  /** The per-chunk announcements; they depend only on the chunk count. */
  function ChunkUpdates(ui: UiState, count: nat): (us: seq<UiState>)
    ensures |us| == count
    ensures forall k :: 0 <= k < count ==> us[k] == ui.(processingMessage := TranscribingMessage(k, count))
  {
    seq(count, k requires 0 <= k < count => ui.(processingMessage := TranscribingMessage(k, count)))
  }

  /** The forEachIndexed loop: for each chunk in order, announce it, transcribe it, and append its
      entry to the transcript, which starts out empty. The transcript ends up holding exactly the
      entries in chunk order, whether each chunk succeeded or failed; each result comes from that
      chunk's attempts; one announcement per chunk is published, naming its position and the
      count; and no other file changes. Each chunk goes through transcribeAudio as the class is
      written; with at most one chunk (all that processAudioFile makes) no handle is lost. */
  method TranscribeChunks(app: App, appDir: Path, session: MeetingSession, env: ProcessEnv, ui: UiState,
                          chunks: seq<AudioChunk>, fs: FileSystem)
    returns (engine: Gemma.Engine, results: seq<Result<string>>, fs': FileSystem, updates: seq<UiState>)
    ensures |results| == |chunks| && |updates| == |chunks|
    ensures TranscriptionFile(appDir, session) in fs' && fs'[TranscriptionFile(appDir, session)] == Text(Entries(results, 0))
    ensures forall k :: 0 <= k < |chunks| ==> Gemma.FromAttempts(results[k], env.attempts(k))
    ensures forall k :: 0 <= k < |chunks| ==> updates[k] == ui.(processingMessage := TranscribingMessage(k, |chunks|))
    ensures forall p :: p != TranscriptionFile(appDir, session) ==> (p in fs' <==> p in fs) && (p in fs ==> fs'[p] == fs[p])
    ensures |chunks| <= 1 && Gemma.Valid(app.engine) ==> Gemma.Settled(engine)
  {
    var transcript := TranscriptionFile(appDir, session);
    fs' := WriteText(fs, transcript, "");
    engine, results := app.engine, [];
    var i := 0;
    while i < |chunks|
      invariant 0 <= i <= |chunks| && |results| == i
      invariant transcript in fs' && fs'[transcript] == Text(Entries(results, 0))
      invariant forall k :: 0 <= k < i ==> Gemma.FromAttempts(results[k], env.attempts(k))
      invariant forall p :: p != transcript ==> (p in fs' <==> p in fs) && (p in fs ==> fs'[p] == fs[p])
      invariant i == 0 ==> engine == app.engine
      invariant i == 1 && Gemma.Valid(app.engine) ==> Gemma.Settled(engine)
    {
      var answer := env.attempts(i);
      var o := Gemma.TranscribeOnce(engine, fs', chunks[i].filePath, answer.first, answer.retry);
      EntriesAppend(results, 0, o.result);
      fs' := AppendText(fs', transcript, ChunkEntry(i, o.result));
      FromAttemptsStep(results, o.result, env.attempts);
      engine, results := o.engine, results + [o.result];
      i := i + 1;
    }
    updates := ChunkUpdates(ui, |chunks|);
  }

  /** The session's files are five different paths. */
  lemma SessionFilesDistinct(appDir: Path, session: MeetingSession)
    ensures SummaryFile(appDir, session) != TranscriptionFile(appDir, session)
    ensures SummaryFile(appDir, session) != AudioFile(appDir, session)
    ensures TranscriptionFile(appDir, session) != AudioFile(appDir, session)
    ensures TranscriptionFile(appDir, session) != ChunkFile(appDir, session)
    ensures AudioFile(appDir, session) != ChunkFile(appDir, session)
  {
    var d := SessionDirectory(appDir, session);
    SiblingsApart(d, SummaryFileName, TranscriptionFileName, 0);
    SiblingsApart(d, SummaryFileName, AudioFileName, 0);
    SiblingsApart(d, TranscriptionFileName, AudioFileName, 0);
    ArtifactsOutsideTemp(appDir, session);
    ChunkInTemp(appDir, session);
  }

  /** The file effects of the summarising step: summary.txt written, then the temp directory
      removed; the recording and the transcript are left as they were. */
  method SaveSummary(fs: FileSystem, appDir: Path, session: MeetingSession, text: string) returns (fs': FileSystem)
    ensures TextOf(fs', SummaryFile(appDir, session)) == text
    ensures TempDir(appDir, session) !in fs'
    ensures TranscriptionFile(appDir, session) in fs ==>
      TranscriptionFile(appDir, session) in fs' && fs'[TranscriptionFile(appDir, session)] == fs[TranscriptionFile(appDir, session)]
    ensures AudioFile(appDir, session) in fs ==>
      AudioFile(appDir, session) in fs' && fs'[AudioFile(appDir, session)] == fs[AudioFile(appDir, session)]
  {
    SessionFilesDistinct(appDir, session);
    ArtifactsOutsideTemp(appDir, session);
    fs' := CleanupTempFiles(WriteText(fs, SummaryFile(appDir, session), text), appDir, session);
  }

  /** SUMMARIZING then COMPLETED after updates that got no further than SUMMARIZING keeps the order. */
  lemma {:induction false} FinishProgressive(before: seq<UiState>, u3: UiState, u4: UiState, tail: seq<UiState>)
    requires Progressive(before) && (|before| == 0 || Ordinal(before[|before| - 1].currentStatus) <= Ordinal(Summarizing))
    requires u3.currentStatus == Summarizing && u4.currentStatus == Completed
    requires forall k :: 0 <= k < |tail| ==> tail[k].currentStatus == Completed
    ensures Progressive(before + [u3, u4] + tail)
  {
    ProgressiveSnoc(before, u3);
    ProgressiveSnoc(before + [u3], u4);
    assert before + [u3] + [u4] == before + [u3, u4];
    ProgressiveThenSame(before + [u3, u4], tail);
  }

  /** The reload that follows a completed run: when the storage directory exists, the meeting list
      is replaced by what loadCompletedMeetings finds and one more update is published; otherwise
      the state stays as it was. */
  method Refresh(u: UiState, fs: FileSystem, appDir: Path, env: ProcessEnv) returns (u': UiState, tail: seq<UiState>)
    ensures u' == u.(completedMeetings := u'.completedMeetings)
    ensures appDir in fs ==>
      && tail == [u']
      && u'.completedMeetings == LoadCompletedMeetings(fs, appDir, env.listing, env.lastModified).value
    ensures appDir !in fs ==> tail == [] && u' == u
  {
    var loaded := LoadCompletedMeetings(fs, appDir, env.listing, env.lastModified);
    u' := if loaded.Some? then u.(completedMeetings := loaded.value) else u;
    tail := if loaded.Some? then [u'] else [];
  }

  /** Refresh as the end of a run sees it: at most one more update, and only the meeting list
      changes. */
  method RefreshAfterRun(u: UiState, fs: FileSystem, appDir: Path, env: ProcessEnv) returns (u': UiState, tail: seq<UiState>)
    ensures u' == u.(completedMeetings := u'.completedMeetings)
    ensures tail == [] || tail == [u']
    ensures tail == [] ==> u' == u
  {
    u', tail := Refresh(u, fs, appDir, env);
  }

  /** generateSummary, with the prompt as written, followed by the cleanup that ends processing: the
      summary, or the failure of the summarisation engine's initialisation, and no handle left open
      when none was lost before. */
  method Summarize(engine: Gemma.Engine, transcript: string, init: Gemma.InitOutcome, g: Gemma.Generation)
    returns (result: Result<string>, engine': Gemma.Engine)
    ensures result == if init.InitOk? then Success(Gemma.TextResultText(g)) else Failure(init.error)
    ensures Gemma.AllNull(engine')
    ensures Gemma.Settled(engine) ==> Gemma.Open(engine'.log) == {}
  {
    var o := Gemma.GenerateSummary(engine, transcript, init, g, false);
    result := o.result;
    engine' := Gemma.Cleanup(o.engine);
  }

  /** The summarising and completing part of the run, once the transcript is written: summary.txt
      holds the summary or the fallback text, the temp directory is gone, the recording and the
      transcript are untouched, and every engine handle is closed. */
  method Finish(app: App, appDir: Path, session: MeetingSession, env: ProcessEnv, handles: Gemma.Engine,
                fs: FileSystem, transcribed: seq<Result<string>>, before: seq<UiState>) returns (r: Run)
    ensures r.app.ui.currentStatus == Completed && !r.app.ui.isProcessing && r.app.ui.processingMessage == "Processing complete!"
    ensures Gemma.AllNull(r.app.engine) && r.app.recorder == app.recorder && r.results == transcribed
    ensures SameRecordingFields(r.app.ui, LastUi(app.ui, before))
    ensures Gemma.Settled(handles) ==> Gemma.Open(r.app.engine.log) == {}
    ensures r.summary == Some(if env.summaryInit.InitOk? then Success(Gemma.TextResultText(env.summaryGeneration))
                              else Failure(env.summaryInit.error))
    ensures TextOf(r.app.fs, SummaryFile(appDir, session)) == SummaryFileText(r.summary.value, TextOf(fs, TranscriptionFile(appDir, session)))
    ensures TempDir(appDir, session) !in r.app.fs
    ensures TranscriptionFile(appDir, session) in fs ==>
      TranscriptionFile(appDir, session) in r.app.fs && r.app.fs[TranscriptionFile(appDir, session)] == fs[TranscriptionFile(appDir, session)]
    ensures AudioFile(appDir, session) in fs ==>
      AudioFile(appDir, session) in r.app.fs && r.app.fs[AudioFile(appDir, session)] == fs[AudioFile(appDir, session)]
    ensures Progressive(before) && (|before| == 0 || Ordinal(before[|before| - 1].currentStatus) <= Ordinal(Summarizing)) ==>
      Progressive(r.updates)
    ensures |r.updates| > |before| + 1 && r.updates[|r.updates| - 1] == r.app.ui
    ensures r.updates[|before|].currentStatus == Summarizing && r.updates[|before|].processingMessage == "Generating meeting summary..."
    ensures r.updates[|before| + 1].currentStatus == Completed
    ensures forall k :: 0 <= k < |before| ==> r.updates[k] == before[k]
  {
    var full := TextOf(fs, TranscriptionFile(appDir, session));
    var u3 := LastUi(app.ui, before).(processingMessage := "Generating meeting summary...", currentStatus := Summarizing);
    var summary, engine' := Summarize(handles, full, env.summaryInit, env.summaryGeneration);
    var fs3 := SaveSummary(fs, appDir, session, SummaryFileText(summary, full));
    var u4 := u3.(isProcessing := false, currentStatus := Completed, processingMessage := "Processing complete!");
    var u5, tail := RefreshAfterRun(u4, fs3, appDir, env);
    if Progressive(before) && (|before| == 0 || Ordinal(before[|before| - 1].currentStatus) <= Ordinal(Summarizing)) {
      FinishProgressive(before, u3, u4, tail);
    }
    r := Run(App(u5, app.recorder, engine', fs3), before + [u3, u4] + tail, transcribed, Some(summary));
  }

  /** What a completed run over `n` chunks leaves behind, against the file system `fs` it started
      from: the k-th result comes from the k-th chunk's attempts, the transcript holds their
      entries, summary.txt holds the summary or the fallback text, the temp directory is gone, and
      the recording is as it was. */
  predicate CompletedRun(fs: FileSystem, appDir: Path, session: MeetingSession, env: ProcessEnv, n: nat, r: Run) {
    && |r.results| == n && (forall k :: 0 <= k < n ==> Gemma.FromAttempts(r.results[k], env.attempts(k)))
    && TextOf(r.app.fs, TranscriptionFile(appDir, session)) == Entries(r.results, 0)
    && r.summary.Some? && TextOf(r.app.fs, SummaryFile(appDir, session)) == SummaryFileText(r.summary.value, Entries(r.results, 0))
    && TempDir(appDir, session) !in r.app.fs
    && (AudioFile(appDir, session) in fs ==>
          AudioFile(appDir, session) in r.app.fs && r.app.fs[AudioFile(appDir, session)] == fs[AudioFile(appDir, session)])
  }

  /** The transcribing part of a run over at least one chunk: "Transcribing audio..." and one
      announcement per chunk follow `u1`, the transcript holds one entry per chunk, and the
      recording is untouched. The transcript then holds at least one "Chunk " entry, so the
      blank-transcript check never fires. */
  method TranscribePhase(app: App, appDir: Path, session: MeetingSession, env: ProcessEnv, u1: UiState,
                         chunks: seq<AudioChunk>, fs: FileSystem)
    returns (engine: Gemma.Engine, results: seq<Result<string>>, fs': FileSystem, before: seq<UiState>)
    requires |chunks| >= 1
    ensures |results| == |chunks| && forall k :: 0 <= k < |chunks| ==> Gemma.FromAttempts(results[k], env.attempts(k))
    ensures TextOf(fs', TranscriptionFile(appDir, session)) == Entries(results, 0)
    ensures TranscriptionFile(appDir, session) in fs'
    ensures !IsBlank(TextOf(fs', TranscriptionFile(appDir, session)))
    ensures AudioFile(appDir, session) in fs ==>
      AudioFile(appDir, session) in fs' && fs'[AudioFile(appDir, session)] == fs[AudioFile(appDir, session)]
    ensures |chunks| == 1 && Gemma.Valid(app.engine) ==> Gemma.Settled(engine)
    ensures |before| >= 2 && before[0] == u1 && SameRecordingFields(before[|before| - 1], u1)
    ensures before[|before| - 1].currentStatus == Transcribing
    ensures Ordinal(u1.currentStatus) <= Ordinal(Transcribing) ==> Progressive(before)
  {
    SessionFilesDistinct(appDir, session);
    var u2 := u1.(processingMessage := "Transcribing audio...", currentStatus := Transcribing);
    var chunkUpdates;
    engine, results, fs', chunkUpdates := TranscribeChunks(app, appDir, session, env, u2, chunks, fs);
    TranscriptNotBlank(results, 0);
    before := [u1, u2] + chunkUpdates;
    ProgressiveThenSame([u2], chunkUpdates);
    if Ordinal(u1.currentStatus) <= Ordinal(Transcribing) {
      ProgressiveSnoc([u1], u2);
      ProgressiveThenSame([u1, u2], chunkUpdates);
    }
  }

  /** The run once chunking produced at least one chunk: transcription, then summarising; the run
      always completes. */
  method Transcribe(app: App, appDir: Path, session: MeetingSession, env: ProcessEnv, u1: UiState,
                    chunks: seq<AudioChunk>, fs: FileSystem) returns (r: Run)
    requires |chunks| >= 1
    ensures r.app.ui.currentStatus == Completed && !r.app.ui.isProcessing && Gemma.AllNull(r.app.engine)
    ensures r.app.recorder == app.recorder && SameRecordingFields(r.app.ui, u1)
    ensures CompletedRun(fs, appDir, session, env, |chunks|, r)
    ensures |chunks| == 1 && Gemma.Valid(app.engine) ==> Gemma.Open(r.app.engine.log) == {}
    ensures |r.updates| >= 1 && r.updates[0] == u1 && r.updates[|r.updates| - 1] == r.app.ui
    ensures Ordinal(u1.currentStatus) <= Ordinal(Transcribing) ==> Progressive(r.updates)
    ensures TranscribedThenSummarized(r.updates)
  {
    var engine, results, fs1, before := TranscribePhase(app, appDir, session, env, u1, chunks, fs);
    r := Finish(app, appDir, session, env, engine, fs1, results, before);
    FinishedRunCompleted(fs, fs1, appDir, session, env, |chunks|, r);
    assert r.updates[0] == before[0];
    assert r.updates[|before| - 1] == before[|before| - 1];
    assert r.updates[|before| - 1].currentStatus == Transcribing && r.updates[|before|].currentStatus == Summarizing;
  }

  /** The files a finished run leaves behind, traced back through the transcription phase. */
  lemma FinishedRunCompleted(fs: FileSystem, fs1: FileSystem, appDir: Path, session: MeetingSession,
                             env: ProcessEnv, n: nat, r: Run)
    requires |r.results| == n && forall k :: 0 <= k < n ==> Gemma.FromAttempts(r.results[k], env.attempts(k))
    requires TextOf(fs1, TranscriptionFile(appDir, session)) == Entries(r.results, 0)
    requires TranscriptionFile(appDir, session) in fs1
    requires AudioFile(appDir, session) in fs ==>
      AudioFile(appDir, session) in fs1 && fs1[AudioFile(appDir, session)] == fs[AudioFile(appDir, session)]
    requires r.summary.Some?
    requires TextOf(r.app.fs, SummaryFile(appDir, session)) == SummaryFileText(r.summary.value, TextOf(fs1, TranscriptionFile(appDir, session)))
    requires TempDir(appDir, session) !in r.app.fs
    requires TranscriptionFile(appDir, session) in fs1 ==>
      TranscriptionFile(appDir, session) in r.app.fs && r.app.fs[TranscriptionFile(appDir, session)] == fs1[TranscriptionFile(appDir, session)]
    requires AudioFile(appDir, session) in fs1 ==>
      AudioFile(appDir, session) in r.app.fs && r.app.fs[AudioFile(appDir, session)] == fs1[AudioFile(appDir, session)]
    ensures CompletedRun(fs, appDir, session, env, n, r)
  {
  }

  /** What every background run guarantees at its end: processing is off, the status is COMPLETED
      or ERROR, every engine field is null, the recorder and the recording fields are untouched,
      the last update is the final state, and the status never moved back. */
  predicate Ended(app: App, r: Run) {
    && !r.app.ui.isProcessing && Gemma.AllNull(r.app.engine) && r.app.recorder == app.recorder
    && SameRecordingFields(r.app.ui, app.ui)
    && (r.app.ui.currentStatus == Completed || r.app.ui.currentStatus == Error)
    && |r.updates| >= 1 && r.updates[|r.updates| - 1] == r.app.ui
    && (Ordinal(app.ui.currentStatus) <= Ordinal(Transcribing) ==> Progressive([app.ui] + r.updates))
  }

  /** A run that started from a valid engine leaves no handle open. */
  predicate Released(app: App, r: Run) {
    Gemma.Valid(app.engine) ==> Gemma.Open(r.app.engine.log) == {}
  }

  /** The processing that follows chunking, given its result `pr`: the "Creating audio chunks..."
      update comes first; no chunks ends in ERROR with the chunking's file system; otherwise every
      chunk is transcribed, TRANSCRIBING and then SUMMARIZING are published, and the run completes. With at most one chunk no handle stays open; with
      more, the class as written can lose one. */
  predicate ChunksOutcome(app: App, appDir: Path, session: MeetingSession, env: ProcessEnv, pr: ProcessResult, r: Run) {
    && Ended(app, r)
    && (|pr.chunks| <= 1 ==> Released(app, r))
    && (r.app.ui.currentStatus == Completed <==> |pr.chunks| >= 1)
    && (pr.chunks == [] ==>
          && r.app.ui.processingMessage == FailurePrefix + NoChunksMessage
          && r.app.fs == pr.fs && r.summary == None)
    && (r.app.ui.currentStatus == Completed ==> CompletedRun(pr.fs, appDir, session, env, |pr.chunks|, r))
    && (r.app.ui.currentStatus == Completed ==> TranscribedThenSummarized(r.updates))
  }

  /** "Creating audio chunks...", the update published before chunking starts. */
  function ChunkingUi(ui: UiState): (u: UiState)
    ensures u == ui.(processingMessage := u.processingMessage)
    ensures u.processingMessage == "Creating audio chunks..."
  {
    ui.(processingMessage := "Creating audio chunks...")
  }

  /** Chunking produced nothing: the run fails with "No audio chunks created". */
  method NoChunksRun(app: App, appDir: Path, session: MeetingSession, env: ProcessEnv, pr: ProcessResult) returns (r: Run)
    requires pr.chunks == []
    ensures ChunksOutcome(app, appDir, session, env, pr, r)
  {
    r := Fail(app, [ChunkingUi(app.ui)], app.engine, pr.fs, NoChunksMessage);
    ProgressiveCons(app.ui, r.updates);
  }

  /** Chunking produced chunks: they are transcribed and the run completes. */
  method ChunksRun(app: App, appDir: Path, session: MeetingSession, env: ProcessEnv, pr: ProcessResult) returns (r: Run)
    requires |pr.chunks| >= 1
    ensures ChunksOutcome(app, appDir, session, env, pr, r)
  {
    r := Transcribe(app, appDir, session, env, ChunkingUi(app.ui), pr.chunks, pr.fs);
    if Ordinal(app.ui.currentStatus) <= Ordinal(Transcribing) {
      ProgressiveCons(app.ui, r.updates);
    }
  }

  method ProcessChunks(app: App, appDir: Path, session: MeetingSession, env: ProcessEnv, pr: ProcessResult) returns (r: Run)
    ensures ChunksOutcome(app, appDir, session, env, pr, r)
  {
    if |pr.chunks| == 0 {
      r := NoChunksRun(app, appDir, session, env, pr);
    } else {
      r := ChunksRun(app, appDir, session, env, pr);
    }
  }

  /** startBackgroundProcessing for `session`: a missing recording ends in ERROR with nothing
      written; otherwise the recording is processed. Chunking makes at most one chunk, so a run
      from a valid engine leaves no handle open. */
  method StartBackgroundProcessing(app: App, appDir: Path, session: MeetingSession, env: ProcessEnv) returns (r: Run)
    ensures Ended(app, r) && Released(app, r)
    ensures AudioFile(appDir, session) !in app.fs ==>
      && r.app.ui.currentStatus == Error
      && r.app.ui.processingMessage == FailurePrefix + (MissingAudioPrefix + AudioFile(appDir, session))
      && r.app.fs == app.fs && r.summary == None
    ensures r.app.ui.currentStatus == Completed <==>
      AudioFile(appDir, session) in app.fs && |ProcessAudioFile(app.fs, appDir, session, env.copyFault).chunks| == 1
    ensures AudioFile(appDir, session) in app.fs && ProcessAudioFile(app.fs, appDir, session, env.copyFault).chunks == [] ==>
      && r.app.ui.processingMessage == FailurePrefix + NoChunksMessage
      && r.app.fs == ProcessAudioFile(app.fs, appDir, session, env.copyFault).fs
      && r.summary == None
    ensures r.app.ui.currentStatus == Completed ==> AudioFile(appDir, session) in app.fs && CompletedRun(app.fs, appDir, session, env, 1, r)
    ensures r.app.ui.currentStatus == Completed ==> TranscribedThenSummarized(r.updates)
  {
    var audio := AudioFile(appDir, session);
    if audio !in app.fs {
      r := Fail(app, [], app.engine, app.fs, MissingAudioPrefix + audio);
      ProgressiveCons(app.ui, r.updates);
    } else {
      var pr := ProcessAudioFile(app.fs, appDir, session, env.copyFault);
      SessionFilesDistinct(appDir, session);
      r := ProcessChunks(app, appDir, session, env, pr);
    }
  }

  // ---------------------------------------------------------------------------
  // stopRecording
  // ---------------------------------------------------------------------------

  /** The state stopRecording publishes before processing starts. */
  function ProcessingUi(ui: UiState): (u: UiState)
    ensures !u.isRecording && u.isProcessing && u.showCompletedDialog
    ensures u.currentStatus == ProcessingAudio && u.processingMessage == "Processing your recording..."
    ensures u.currentSession == ui.currentSession && u.completedMeetings == ui.completedMeetings
  {
    ui.(isRecording := false, isProcessing := true, currentStatus := ProcessingAudio,
        processingMessage := "Processing your recording...", showCompletedDialog := true)
  }

  /** stopRecording: stop the recorder (which saves the recording), publish PROCESSING_AUDIO, and
      process the current session if there is one. Without a session the state stays
      PROCESSING_AUDIO with isProcessing set; with one, the run ends COMPLETED or ERROR. The
      status never moves back along the way. */
  method StopRecording(app: App, appDir: Path, stop: Rec.StopEnv, env: ProcessEnv) returns (r: Run)
    ensures !r.app.recorder.recording && r.app.ui.showCompletedDialog && !r.app.ui.isRecording
    ensures app.ui.currentSession.None? ==>
      && r.app.ui == ProcessingUi(app.ui) && r.updates == [r.app.ui]
      && r.app.fs == Rec.StopRecording(app.recorder, app.fs, stop).fs && r.app.engine == app.engine
    ensures app.ui.currentSession.Some? ==>
      && !r.app.ui.isProcessing && Gemma.AllNull(r.app.engine)
      && (r.app.ui.currentStatus == Completed || r.app.ui.currentStatus == Error)
    ensures app.ui.currentSession.Some? && Gemma.Valid(app.engine) ==> Gemma.Open(r.app.engine.log) == {}
    ensures r.app.ui.currentStatus == Completed ==> TranscribedThenSummarized(r.updates)
    ensures |r.updates| >= 1 && r.updates[0] == ProcessingUi(app.ui) && r.updates[|r.updates| - 1] == r.app.ui
    ensures Progressive(r.updates)
  {
    var stopped := Rec.StopRecording(app.recorder, app.fs, stop);
    var u := ProcessingUi(app.ui);
    var next := App(u, stopped.recorder, app.engine, stopped.fs);
    if app.ui.currentSession.None? {
      r := Run(next, [u], [], None);
    } else {
      var run := StartBackgroundProcessing(next, appDir, app.ui.currentSession.value, env);
      r := run.(updates := [u] + run.updates);
      if r.app.ui.currentStatus == Completed {
        TranscribedThenSummarizedAfter([u], run.updates);
      }
    }
  }
}
