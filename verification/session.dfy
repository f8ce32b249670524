/** MeetingSession and MeetingStatus: the record that names a meeting's folder and artifacts, and
    where those artifacts live under the app's storage directory. */
module Sessions {
  import opened Base
  import opened Files

  datatype MeetingStatus = Recording | ProcessingAudio | Transcribing | Summarizing | Completed | Error

  /** The enum's values in declaration order. */
  const Statuses: seq<MeetingStatus> :=
    [Recording, ProcessingAudio, Transcribing, Summarizing, Completed, Error]

  /** MeetingStatus.ordinal: each value sits at exactly one position of the six. */
  function Ordinal(s: MeetingStatus): (i: nat)
    ensures i < |Statuses| == 6
    ensures Statuses[i] == s
  {
    match s
    case Recording => 0
    case ProcessingAudio => 1
    case Transcribing => 2
    case Summarizing => 3
    case Completed => 4
    case Error => 5
  }

  /** The six values are pairwise distinct, so `Ordinal` is a bijection onto 0..5. */
  lemma StatusesDistinct(i: nat, j: nat)
    requires i < j < |Statuses|
    ensures Statuses[i] != Statuses[j]
    ensures Ordinal(Statuses[i]) == i
  {
  }

  datatype MeetingSession = MeetingSession(
    sessionId: string,
    timestamp: int,
    folderName: string,
    audioFilePath: Path,
    transcriptionPath: Path,
    summaryPath: Path,
    status: MeetingStatus)

  const FolderPrefix: string := "meeting_"
  const AudioFileName: string := "full_recording.wav"
  const TranscriptionFileName: string := "transcription.txt"
  const SummaryFileName: string := "summary.txt"
  const TempDirName: string := "temp"
  const ChunkFileName: string := "chunk_0.wav"

  predicate StartsWith(s: string, prefix: string) {
    |prefix| <= |s| && s[..|prefix|] == prefix
  }

  /** The three artifact paths of a meeting folder, relative to the storage directory. */
  function Artifacts(folderName: string, status: MeetingStatus, sessionId: string, timestamp: int): MeetingSession {
    MeetingSession(sessionId, timestamp, folderName,
                   Child(folderName, AudioFileName),
                   Child(folderName, TranscriptionFileName),
                   Child(folderName, SummaryFileName),
                   status)
  }

  lemma FileNamesPlain()
    ensures HasNoSeparator(AudioFileName)
    ensures HasNoSeparator(TranscriptionFileName)
    ensures HasNoSeparator(SummaryFileName)
    ensures HasNoSeparator(TempDirName) && HasNoSeparator(ChunkFileName)
  {
  }

  /** Each artifact of a folder has the folder as its parent. */
  lemma ArtifactParents(folder: string)
    requires |folder| > 0
    ensures ParentOf(Child(folder, AudioFileName)) == Some(folder)
    ensures ParentOf(Child(folder, TranscriptionFileName)) == Some(folder)
    ensures ParentOf(Child(folder, SummaryFileName)) == Some(folder)
  {
    FileNamesPlain();
    ParentOfChild(folder, AudioFileName);
    ParentOfChild(folder, TranscriptionFileName);
    ParentOfChild(folder, SummaryFileName);
  }

  /** The artifact paths spelled out. */
  lemma ArtifactNames(folder: string)
    ensures Child(folder, AudioFileName) == folder + "/full_recording.wav"
    ensures Child(folder, TranscriptionFileName) == folder + "/transcription.txt"
    ensures Child(folder, SummaryFileName) == folder + "/summary.txt"
  {
    assert "/" + AudioFileName == "/full_recording.wav";
    assert "/" + TranscriptionFileName == "/transcription.txt";
    assert "/" + SummaryFileName == "/summary.txt";
  }

  /** MeetingSession.create: `formatted` is what the date formatter makes of `timestamp`, treated as
      an uninterpreted value. The id is the decimal timestamp; every artifact lives in the folder. */
  function Create(timestamp: int, formatted: string): (s: MeetingSession)
    ensures s.status == Recording
    ensures s.timestamp == timestamp
    ensures StartsWith(s.folderName, FolderPrefix) && s.folderName[|FolderPrefix|..] == formatted
    ensures ParseInt(s.sessionId) == Some(timestamp)
    ensures ParentOf(s.audioFilePath) == Some(s.folderName)
    ensures ParentOf(s.transcriptionPath) == Some(s.folderName)
    ensures ParentOf(s.summaryPath) == Some(s.folderName)
    ensures s.audioFilePath == s.folderName + "/full_recording.wav"
    ensures s.transcriptionPath == s.folderName + "/transcription.txt"
    ensures s.summaryPath == s.folderName + "/summary.txt"
  {
    var folder := FolderPrefix + formatted;
    assert folder[..|FolderPrefix|] == FolderPrefix && folder[|FolderPrefix|..] == formatted;
    IntStringRoundTrip(timestamp);
    ArtifactParents(folder);
    ArtifactNames(folder);
    Artifacts(folder, Recording, IntToString(timestamp), timestamp)
  }

  /** Sessions created at different instants get different ids. */
  lemma CreateIdsDistinct(t1: int, f1: string, t2: int, f2: string)
    requires t1 != t2
    ensures Create(t1, f1).sessionId != Create(t2, f2).sessionId
  {
  }

  /** The three artifacts of a session are three different files. */
  lemma ArtifactsDistinct(timestamp: int, formatted: string)
    ensures var s := Create(timestamp, formatted);
      s.audioFilePath != s.transcriptionPath && s.audioFilePath != s.summaryPath
      && s.transcriptionPath != s.summaryPath
  {
    var s := Create(timestamp, formatted);
    var k := |s.folderName| + 1;
    assert s.audioFilePath[k] == 'f';
    assert s.transcriptionPath[k] == 't';
    assert s.summaryPath[k] == 's';
  }

  // ---------------------------------------------------------------------------
  // Locations under the storage directory
  // ---------------------------------------------------------------------------

  /** getSessionDirectory: the folder under the storage directory. */
  function SessionDirectory(appDir: Path, s: MeetingSession): Path {
    Child(appDir, s.folderName)
  }

  function AudioFile(appDir: Path, s: MeetingSession): Path {
    Child(SessionDirectory(appDir, s), AudioFileName)
  }

  function TranscriptionFile(appDir: Path, s: MeetingSession): Path {
    Child(SessionDirectory(appDir, s), TranscriptionFileName)
  }

  function SummaryFile(appDir: Path, s: MeetingSession): Path {
    Child(SessionDirectory(appDir, s), SummaryFileName)
  }

  function TempDir(appDir: Path, s: MeetingSession): Path {
    Child(SessionDirectory(appDir, s), TempDirName)
  }

  function ChunkFile(appDir: Path, s: MeetingSession): Path {
    Child(TempDir(appDir, s), ChunkFileName)
  }

  /** Two names that differ at some position give siblings neither of which lies in or is the other. */
  lemma SiblingsApart(dir: Path, a: string, b: string, j: nat)
    requires j < |a| && j < |b| && a[j] != b[j]
    ensures Child(dir, a) != Child(dir, b)
    ensures !Within(Child(dir, a), Child(dir, b))
  {
    var k := |dir| + 1 + j;
    assert Child(dir, a)[k] == a[j];
    assert Child(dir, b)[k] == b[j];
  }

  /** The absolute artifact path is the storage directory joined with the session's relative path,
      for a session laid out as create lays it out. */
  lemma AbsoluteArtifacts(appDir: Path, s: MeetingSession)
    requires s.audioFilePath == s.folderName + "/full_recording.wav"
    requires s.transcriptionPath == s.folderName + "/transcription.txt"
    requires s.summaryPath == s.folderName + "/summary.txt"
    ensures AudioFile(appDir, s) == Child(appDir, s.audioFilePath)
    ensures TranscriptionFile(appDir, s) == Child(appDir, s.transcriptionPath)
    ensures SummaryFile(appDir, s) == Child(appDir, s.summaryPath)
  {
  }

  /** The session's own files are neither the temp directory nor inside it. */
  lemma ArtifactsOutsideTemp(appDir: Path, s: MeetingSession)
    ensures AudioFile(appDir, s) != TempDir(appDir, s) && !Within(AudioFile(appDir, s), TempDir(appDir, s))
    ensures TranscriptionFile(appDir, s) != TempDir(appDir, s) && !Within(TranscriptionFile(appDir, s), TempDir(appDir, s))
    ensures SummaryFile(appDir, s) != TempDir(appDir, s) && !Within(SummaryFile(appDir, s), TempDir(appDir, s))
  {
    var d := SessionDirectory(appDir, s);
    SiblingsApart(d, AudioFileName, TempDirName, 0);
    SiblingsApart(d, TranscriptionFileName, TempDirName, 1);
    SiblingsApart(d, SummaryFileName, TempDirName, 0);
  }
}
