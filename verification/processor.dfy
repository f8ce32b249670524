/** AudioProcessor: turning a session's recording into the list of chunks to transcribe (today a
    single chunk that copies the whole file) and removing the chunk files afterwards. */
module Processing {
  import opened Base
  import opened Files
  import opened Sessions

  /** An audio chunk: its position, its file, and its start and end second (the source's Float
      values are the whole numbers 0 and 30 here). */
  datatype AudioChunk = AudioChunk(chunkIndex: int, filePath: Path, startSeconds: int, endSeconds: int)

  /** The end time the single chunk is given, whatever the recording's length. */
  const SingleChunkEndSeconds: int := 30

  datatype ProcessResult = ProcessResult(chunks: seq<AudioChunk>, fs: FileSystem)

  /** File.copyTo(target, overwrite = true): an existing target is deleted first, which fails
      for a directory that still has entries; copying a directory creates an empty one. */
  predicate TargetReplaceable(fs: FileSystem, target: Path) {
    target !in fs || !fs[target].Directory? || forall p {:trigger Within(p, target)} :: p in fs ==> !Within(p, target)
  }

  /** processAudioFile. Missing recording: empty list, nothing touched. Otherwise the temp directory
      is made (mkdirs; its result is ignored) and the recording is copied to temp/chunk_0.wav; a
      failure of the copy (`copyFault` stands for the I/O errors the environment can raise, a temp
      path that is not a directory, or a target that cannot be replaced) is caught and yields the
      empty list. */
  function ProcessAudioFile(fs: FileSystem, appDir: Path, session: MeetingSession, copyFault: bool): (res: ProcessResult)
    ensures res.chunks == [] || res.chunks == [AudioChunk(0, ChunkFile(appDir, session), 0, SingleChunkEndSeconds)]
    ensures AudioFile(appDir, session) !in fs ==> res == ProcessResult([], fs)
    ensures |res.chunks| == 1 <==>
      && AudioFile(appDir, session) in fs && !copyFault
      && (TempDir(appDir, session) !in fs || fs[TempDir(appDir, session)].Directory?)
      && TargetReplaceable(fs, ChunkFile(appDir, session))
    ensures |res.chunks| == 1 ==>
      ChunkFile(appDir, session) in res.fs && res.fs[ChunkFile(appDir, session)] == fs[AudioFile(appDir, session)]
    ensures forall p :: p in res.fs && p != TempDir(appDir, session) && p != ChunkFile(appDir, session) ==>
      p in fs && res.fs[p] == fs[p]
    ensures forall p :: p in fs && p != ChunkFile(appDir, session) ==> p in res.fs && res.fs[p] == fs[p]
  {
    var audio := AudioFile(appDir, session);
    var temp := TempDir(appDir, session);
    var chunk := ChunkFile(appDir, session);
    if audio !in fs then ProcessResult([], fs)
    else
      var fs1 := if temp in fs then fs else fs[temp := Directory];
      if copyFault || !fs1[temp].Directory? || !TargetReplaceable(fs1, chunk) then ProcessResult([], fs1)
      else ProcessResult([AudioChunk(0, chunk, 0, SingleChunkEndSeconds)], fs1[chunk := fs[audio]])
  }

  /** cleanupTempFiles: delete the temp directory with everything beneath it, if it exists. */
  function CleanupTempFiles(fs: FileSystem, appDir: Path, session: MeetingSession): (fs': FileSystem)
    ensures forall p {:trigger p in fs'} :: p in fs' <==>
      p in fs && p != TempDir(appDir, session) && (TempDir(appDir, session) !in fs || !Within(p, TempDir(appDir, session)))
    ensures forall p {:trigger fs'[p]} :: p in fs' ==> fs'[p] == fs[p]
    ensures TempDir(appDir, session) !in fs ==> fs' == fs
  {
    var temp := TempDir(appDir, session);
    if temp in fs then DeleteRecursively(fs, temp) else fs
  }

  /** Cleaning twice is cleaning once. */
  lemma CleanupIdempotent(fs: FileSystem, appDir: Path, session: MeetingSession)
    ensures CleanupTempFiles(CleanupTempFiles(fs, appDir, session), appDir, session) == CleanupTempFiles(fs, appDir, session)
  {
  }

  /** Cleanup keeps the recording, the transcription and the summary. */
  lemma CleanupKeepsArtifacts(fs: FileSystem, appDir: Path, session: MeetingSession)
    ensures var fs' := CleanupTempFiles(fs, appDir, session);
      && (AudioFile(appDir, session) in fs ==> AudioFile(appDir, session) in fs' && fs'[AudioFile(appDir, session)] == fs[AudioFile(appDir, session)])
      && (TranscriptionFile(appDir, session) in fs ==> TranscriptionFile(appDir, session) in fs')
      && (SummaryFile(appDir, session) in fs ==> SummaryFile(appDir, session) in fs')
  {
    ArtifactsOutsideTemp(appDir, session);
  }

  /** The chunk file lies inside the temp directory. */
  lemma ChunkInTemp(appDir: Path, session: MeetingSession)
    ensures Within(ChunkFile(appDir, session), TempDir(appDir, session))
    ensures ChunkFile(appDir, session) != TempDir(appDir, session)
  {
    ChildWithin(TempDir(appDir, session), ChunkFileName);
  }

  /** Chunking followed by cleanup restores the file system, when no temp directory existed before:
      everything processAudioFile adds lives in the temp directory. */
  lemma ProcessThenCleanupRestores(fs: FileSystem, appDir: Path, session: MeetingSession, copyFault: bool)
    requires TempDir(appDir, session) !in fs
    requires forall p :: p in fs ==> !Within(p, TempDir(appDir, session))
    ensures CleanupTempFiles(ProcessAudioFile(fs, appDir, session, copyFault).fs, appDir, session) == fs
  {
    ChunkInTemp(appDir, session);
    var fs1 := ProcessAudioFile(fs, appDir, session, copyFault).fs;
    var fs2 := CleanupTempFiles(fs1, appDir, session);
    assert ChunkFile(appDir, session) !in fs;
    forall p | p in fs ensures p in fs2 && fs2[p] == fs[p] {
    }
    assert fs2.Keys == fs.Keys;
  }
}
