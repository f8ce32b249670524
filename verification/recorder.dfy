/** AudioRecorder: the capture loop that folds the device's read results into buffered blocks,
    the WAV file written from them, and the start/stop state machine guarded by `isRecording`.
    The capture thread is modelled by running the loop to completion when `stopRecording`
    joins it: `results` lists every read the loop performed before it observed the cleared flag. */
module AudioRecorder {
  import opened Base
  import opened LittleEndian
  import opened Files
  import opened WavFormat

  // ---------------------------------------------------------------------------
  // The recording loop
  // ---------------------------------------------------------------------------

  /** One call of AudioRecord.read(audioData, 0, bufferSize): the bytes the device delivered
      into the front of the scratch buffer and the count it returned (negative on error). */
  datatype DeviceRead = DeviceRead(count: int, data: seq<byte>)

  /** The device keeps AudioRecord.read's contract: it never reports more than was asked for,
      and a positive count is exactly the number of bytes it delivered. */
  predicate WellBehaved(results: seq<DeviceRead>, bufferSize: nat) {
    forall k :: 0 <= k < |results| ==>
      results[k].count <= bufferSize && |results[k].data| == if results[k].count > 0 then results[k].count else 0
  }

  function Zeros(n: nat): (z: seq<byte>)
    ensures |z| == n
  {
    seq(n, _ => 0)
  }

  /** The scratch buffer after the device wrote `data` into its front; the rest keeps stale bytes. */
  function Fill(scratch: seq<byte>, data: seq<byte>): (s: seq<byte>)
    ensures |s| == |scratch|
  {
    if |data| <= |scratch| then data + scratch[|data|..] else data[..|scratch|]
  }

  /** Arrays.copyOf(a, n): the first n bytes, zero-padded when n exceeds the array. */
  function CopyOf(a: seq<byte>, n: nat): (c: seq<byte>)
    ensures |c| == n
  {
    if n <= |a| then a[..n] else a + Zeros(n - |a|)
  }

  datatype LoopResult = LoopResult(blocks: seq<seq<byte>>, totalBytes: Int32, readError: bool)

  /** The body of `while (isRecording.get())`: a positive count appends a copy of that many bytes of
      the scratch buffer and adds it to the Int total, zero reads again, a negative count breaks. */
  function Loop(scratch: seq<byte>, results: seq<DeviceRead>, blocks: seq<seq<byte>>, total: Int32): LoopResult
    decreases |results|
  {
    if |results| == 0 then LoopResult(blocks, total, false)
    else
      var r := results[0];
      var filled := Fill(scratch, if r.count > 0 then r.data else []);
      if r.count > 0 then
        Loop(filled, results[1..], blocks + [CopyOf(filled, r.count)], Wrap32(total + r.count))
      else if r.count < 0 then
        LoopResult(blocks, total, true)
      else
        Loop(filled, results[1..], blocks, total)
  }

  /** recordingLoop(bufferSize) up to the save decision: a fresh zeroed scratch buffer, no blocks, total 0. */
  function RecordingLoop(bufferSize: nat, results: seq<DeviceRead>): LoopResult {
    Loop(Zeros(bufferSize), results, [], 0)
  }

  /** The reads the loop consumes: everything before the first negative count. */
  function BeforeError(results: seq<DeviceRead>): (rs: seq<DeviceRead>)
    ensures |rs| <= |results| && rs == results[..|rs|]
    ensures forall k :: 0 <= k < |rs| ==> rs[k].count >= 0
  {
    if |results| == 0 || results[0].count < 0 then [] else [results[0]] + BeforeError(results[1..])
  }

  /** The bytes delivered by the reads with a positive count, in order. */
  function Delivered(results: seq<DeviceRead>): seq<seq<byte>> {
    if |results| == 0 then []
    else if results[0].count > 0 then [results[0].data] + Delivered(results[1..])
    else Delivered(results[1..])
  }

  predicate HasReadError(results: seq<DeviceRead>) {
    exists k :: 0 <= k < |results| && results[k].count < 0
  }

  lemma {:induction false} TotalSizeAppend(a: seq<seq<byte>>, b: seq<seq<byte>>)
    ensures TotalSize(a + b) == TotalSize(a) + TotalSize(b)
    decreases |b|
  {
    if |b| == 0 {
      assert a + b == a;
    } else {
      var ab := a + b;
      assert ab[..|ab| - 1] == a + b[..|b| - 1];
      assert ab[|ab| - 1] == b[|b| - 1];
      TotalSizeAppend(a, b[..|b| - 1]);
    }
  }

  lemma WellBehavedTail(results: seq<DeviceRead>, bufferSize: nat)
    requires |results| > 0 && WellBehaved(results, bufferSize)
    ensures WellBehaved(results[1..], bufferSize)
  {
    var rest := results[1..];
    forall k | 0 <= k < |rest| ensures rest[k] == results[k + 1] { }
  }

  lemma HasReadErrorTail(results: seq<DeviceRead>)
    requires |results| > 0 && results[0].count >= 0
    ensures HasReadError(results) <==> HasReadError(results[1..])
  {
    var rest := results[1..];
    if HasReadError(rest) {
      var k :| 0 <= k < |rest| && rest[k].count < 0;
      assert results[k + 1].count < 0;
    }
    if HasReadError(results) {
      var k :| 0 <= k < |results| && results[k].count < 0;
      assert k > 0 && rest[k - 1].count < 0;
    }
  }

  /** Copying as many bytes as the device just delivered yields exactly those bytes. */
  lemma CopyOfFresh(scratch: seq<byte>, data: seq<byte>)
    requires |data| <= |scratch|
    ensures CopyOf(Fill(scratch, data), |data|) == data
  {
  }

  lemma {:induction false} LoopReportsError(scratch: seq<byte>, results: seq<DeviceRead>, blocks: seq<seq<byte>>, total: Int32)
    ensures Loop(scratch, results, blocks, total).readError == HasReadError(results)
    decreases |results|
  {
    if |results| > 0 {
      var r := results[0];
      if r.count >= 0 {
        HasReadErrorTail(results);
        var filled := Fill(scratch, if r.count > 0 then r.data else []);
        if r.count > 0 {
          LoopReportsError(filled, results[1..], blocks + [CopyOf(filled, r.count)], Wrap32(total + r.count));
        } else {
          LoopReportsError(filled, results[1..], blocks, total);
        }
      }
    }
  }

  lemma AppendOne(blocks: seq<seq<byte>>, block: seq<byte>, total: Int32)
    requires total == Wrap32(TotalSize(blocks))
    ensures Wrap32(total + |block|) == Wrap32(TotalSize(blocks + [block]))
  {
    TotalSizeAppend(blocks, [block]);
    assert [block][..0] == [];
    assert TotalSize([block]) == |block|;
    Wrap32Congruent(total + |block|, TotalSize(blocks + [block]));
  }

  /** The loop keeps `totalBytes` equal to the Int sum of the sizes of the blocks it buffered. */
  lemma {:induction false} LoopTotal(scratch: seq<byte>, results: seq<DeviceRead>, blocks: seq<seq<byte>>, total: Int32)
    requires total == Wrap32(TotalSize(blocks))
    ensures var res := Loop(scratch, results, blocks, total); res.totalBytes == Wrap32(TotalSize(res.blocks))
    decreases |results|
  {
    if |results| > 0 {
      var r := results[0];
      var filled := Fill(scratch, if r.count > 0 then r.data else []);
      if r.count > 0 {
        AppendOne(blocks, CopyOf(filled, r.count), total);
        LoopTotal(filled, results[1..], blocks + [CopyOf(filled, r.count)], Wrap32(total + r.count));
      } else if r.count == 0 {
        LoopTotal(filled, results[1..], blocks, total);
      }
    }
  }

  /** One read that is not an error contributes its data (if any) ahead of the rest. */
  lemma DeliveredStep(results: seq<DeviceRead>)
    requires |results| > 0 && results[0].count >= 0
    ensures Delivered(BeforeError(results))
      == (if results[0].count > 0 then [results[0].data] else []) + Delivered(BeforeError(results[1..]))
  {
    var r := results[0];
    var rest := results[1..];
    assert BeforeError(results) == [r] + BeforeError(rest);
    assert ([r] + BeforeError(rest))[1..] == BeforeError(rest);
  }

  /** One read that is not an error: a positive count buffers exactly the bytes the device
      delivered, a zero count buffers nothing. */
  lemma LoopStep(scratch: seq<byte>, results: seq<DeviceRead>, blocks: seq<seq<byte>>, total: Int32)
    requires |results| > 0 && results[0].count >= 0 && WellBehaved(results, |scratch|)
    ensures var r := results[0];
      Loop(scratch, results, blocks, total)
      == Loop(Fill(scratch, if r.count > 0 then r.data else []), results[1..],
              blocks + (if r.count > 0 then [r.data] else []),
              if r.count > 0 then Wrap32(total + r.count) else total)
  {
    var r := results[0];
    if r.count > 0 {
      CopyOfFresh(scratch, r.data);
    } else {
      assert blocks + [] == blocks;
    }
  }

  /** With a well-behaved device the loop buffers exactly the delivered bytes of the reads before
      the first error: no stale scratch bytes, no padding. */
  lemma {:induction false} LoopCaptures(scratch: seq<byte>, results: seq<DeviceRead>, blocks: seq<seq<byte>>, total: Int32)
    requires WellBehaved(results, |scratch|)
    ensures Loop(scratch, results, blocks, total).blocks == blocks + Delivered(BeforeError(results))
    decreases |results|
  {
    if |results| == 0 || results[0].count < 0 {
      assert blocks + [] == blocks;
    } else {
      var r := results[0];
      var rest := results[1..];
      var piece := if r.count > 0 then [r.data] else [];
      var filled := Fill(scratch, if r.count > 0 then r.data else []);
      LoopStep(scratch, results, blocks, total);
      WellBehavedTail(results, |scratch|);
      DeliveredStep(results);
      LoopCaptures(filled, rest, blocks + piece, if r.count > 0 then Wrap32(total + r.count) else total);
      AppendAssoc(blocks, piece, Delivered(BeforeError(rest)));
    }
  }

  /** Whether recordingLoop goes on to saveAsWav: only when the Int total is positive. */
  predicate SavesFile(result: LoopResult) {
    result.totalBytes > 0
  }

  /** While the recording stays below 2^31 bytes, a file is written exactly when some read before
      the first error delivered data; with nothing delivered no file is written. */
  lemma SavesFileIffDataCaptured(bufferSize: nat, results: seq<DeviceRead>)
    requires WellBehaved(results, bufferSize)
    requires TotalSize(Delivered(BeforeError(results))) < Two31
    ensures RecordingLoop(bufferSize, results).blocks == Delivered(BeforeError(results))
    ensures SavesFile(RecordingLoop(bufferSize, results)) <==> TotalSize(Delivered(BeforeError(results))) > 0
  {
    var res := RecordingLoop(bufferSize, results);
    var captured := Delivered(BeforeError(results));
    assert TotalSize([]) == 0;
    LoopCaptures(Zeros(bufferSize), results, [], 0);
    assert res.blocks == captured by {
      assert [] + captured == captured;
    }
    LoopTotal(Zeros(bufferSize), results, [], 0);
    Wrap32Identity(TotalSize(captured));
  }

  // ---------------------------------------------------------------------------
  // saveAsWav
  // ---------------------------------------------------------------------------

  /** saveAsWav: if the parent directory vanished it is re-created (failure throws an IOException
      that is caught and logged), then the header and the blocks are written. Opening the output
      stream fails the same way when the parent is not a directory or the output path is one.
      The flag says whether mkdirs succeeds if it is needed. */
  function SaveAsWav(fs: FileSystem, outputFile: Option<Path>, blocks: seq<seq<byte>>, mkdirsSucceeds: bool): (fs': FileSystem)
    ensures forall p :: p in fs ==> p in fs' && (fs'[p] == fs[p] || (outputFile == Some(p) && fs'[p] == Audio(WavFile(blocks))))
    ensures forall p :: p in fs' && p !in fs ==>
      outputFile.Some? && ((p == outputFile.value && fs'[p] == Audio(WavFile(blocks)))
                           || (Some(p) == ParentOf(outputFile.value) && fs'[p] == Directory))
  {
    match outputFile
    case None => fs
    case Some(path) =>
      var parent := ParentOf(path);
      var parentExists := parent.Some? && parent.value in fs;
      if !parentExists && !(parent.Some? && mkdirsSucceeds) then fs
      else if parentExists && !fs[parent.value].Directory? then fs
      else
        var fs1 := if parentExists then fs else fs[parent.value := Directory];
        if path in fs1 && fs1[path].Directory? then fs1
        else fs1[path := Audio(WavFile(blocks))]
  }

  // ---------------------------------------------------------------------------
  // The start/stop state machine
  // ---------------------------------------------------------------------------

  /** What the `audioRecord` field holds: nothing, a handle whose state is not INITIALIZED, an
      initialised handle that is not capturing, or a capturing handle. */
  datatype Device = NoDevice | Unusable | Idle | Capturing

  datatype Recorder = Recorder(
    recording: bool,          // isRecording
    device: Device,           // audioRecord
    loopStarted: bool,        // recordingThread was started
    bufferSize: nat,          // the size the loop results with
    outputFile: Option<Path>) // outputFile

  const Fresh: Recorder := Recorder(false, NoDevice, false, 0, None)

  /** How constructing and starting the AudioRecord turns out. */
  datatype DeviceStart =
    | ConstructorThrows           // AudioRecord(...) throws (for instance on an invalid buffer size)
    | NotInitialised              // state != STATE_INITIALIZED
    | StartThrows                 // audioRecord.startRecording() throws after the flag was set
    | Started                     // capturing, loop thread started

  /** The answers the platform gives to startRecording's checks. */
  datatype StartEnv = StartEnv(
    permissionGranted: bool, mkdirsSucceeds: bool, minBufferSize: nat, device: DeviceStart)

  datatype StartResult = StartResult(recorder: Recorder, fs: FileSystem, started: bool)

  /** The fields agree with each other: a capturing device is exactly a started loop, and both
      only while the flag is set and an output file is known. */
  predicate Consistent(r: Recorder) {
    && (r.loopStarted <==> r.device == Capturing)
    && (r.loopStarted ==> r.recording && r.outputFile.Some?)
  }

  /** The recorder's invariant: consistent, and the flag is set only while a capture loop runs,
      so `isRecording` means that audio is being captured. */
  predicate Valid(r: Recorder) {
    Consistent(r) && (r.recording ==> r.loopStarted)
  }

  /** The case of startRecording that sets the flag and then sees audioRecord.startRecording()
      throw: idle, permission granted, a parent directory that exists or can be made. */
  predicate ThrowsAfterFlag(r: Recorder, fs: FileSystem, path: Path, env: StartEnv) {
    && !r.recording && env.permissionGranted && env.device == StartThrows
    && ParentOf(path).Some? && (ParentOf(path).value in fs || env.mkdirsSucceeds)
  }

  /** The checks of startRecording in order: already recording, permission, parent directory,
      device. `flagAfterThrow` is what `isRecording` holds when startRecording() throws after
      the flag was set: the code as written leaves it set. */
  function Start(r: Recorder, fs: FileSystem, path: Path, env: StartEnv, flagAfterThrow: bool): (res: StartResult)
    ensures r.recording ==> res == StartResult(r, fs, false)
    ensures !env.permissionGranted ==> res == StartResult(r, fs, false)
    ensures res.started <==>
      && !r.recording && env.permissionGranted && ParentOf(path).Some?
      && (ParentOf(path).value in fs || env.mkdirsSucceeds) && env.device == Started
    ensures res.started ==> res.recorder.recording && res.recorder.loopStarted && res.recorder.outputFile == Some(path)
    ensures res.recorder.loopStarted ==> res.started || r.loopStarted
  {
    if r.recording || !env.permissionGranted then StartResult(r, fs, false)
    else
      var r1 := r.(outputFile := Some(path));
      match ParentOf(path)
      case None => StartResult(r1, fs, false)
      case Some(parent) =>
        if parent !in fs && !env.mkdirsSucceeds then StartResult(r1, fs, false)
        else
          var fs1 := if parent in fs then fs else fs[parent := Directory];
          match env.device
          case ConstructorThrows => StartResult(r1, fs1, false)
          case NotInitialised => StartResult(r1.(device := Unusable), fs1, false)
          case StartThrows => StartResult(r1.(device := Idle, recording := flagAfterThrow), fs1, false)
          case Started =>
            StartResult(r1.(device := Capturing, recording := true, loopStarted := true,
                            bufferSize := env.minBufferSize), fs1, true)
  }

  /** startRecording as written: when audioRecord.startRecording() throws, the catch block returns
      false but `isRecording` stays set. */
  function StartRecordingAsWritten(r: Recorder, fs: FileSystem, path: Path, env: StartEnv): (res: StartResult)
    ensures (env.device == StartThrows && !r.recording && env.permissionGranted
             && ParentOf(path).Some? && ParentOf(path).value in fs)
            ==> !res.started && res.recorder.recording
  {
    Start(r, fs, path, env, true)
  }

  /** startRecording with the flag cleared again in the catch block: a start that reports failure
      leaves the flag as it found it. */
  function StartRecording(r: Recorder, fs: FileSystem, path: Path, env: StartEnv): (res: StartResult)
    ensures r.recording ==> res == StartResult(r, fs, false)
    ensures !env.permissionGranted ==> res == StartResult(r, fs, false)
    ensures res.started <==>
      && !r.recording && env.permissionGranted && ParentOf(path).Some?
      && (ParentOf(path).value in fs || env.mkdirsSucceeds) && env.device == Started
    ensures res.started ==> res.recorder.recording && res.recorder.loopStarted && res.recorder.outputFile == Some(path)
    ensures !res.started ==> res.recorder.recording == r.recording && res.recorder.loopStarted == r.loopStarted
  {
    Start(r, fs, path, env, false)
  }

  /** As written, a start whose device throws in startRecording() reports failure, yet every later
      start is refused as "already recording" until stopRecording is called. */
  lemma StartThrowsBlocksLaterStarts(r: Recorder, fs: FileSystem, path: Path, env: StartEnv,
                                     path2: Path, env2: StartEnv)
    requires !r.recording && env.permissionGranted && env.device == StartThrows
    requires ParentOf(path).Some? && ParentOf(path).value in fs
    ensures var res := StartRecordingAsWritten(r, fs, path, env);
      !res.started && !StartRecordingAsWritten(res.recorder, res.fs, path2, env2).started
  {
  }

  /** With the flag cleared on failure, a failed start does not block a later one: from an idle
      recorder a retry under working conditions starts. */
  lemma FailedStartAllowsRetry(r: Recorder, fs: FileSystem, path: Path, env: StartEnv,
                               path2: Path, env2: StartEnv)
    requires !r.recording
    requires !StartRecording(r, fs, path, env).started
    requires env2.permissionGranted && env2.device == Started
    requires ParentOf(path2).Some? && ParentOf(path2).value in StartRecording(r, fs, path, env).fs
    ensures var res := StartRecording(r, fs, path, env);
      StartRecording(res.recorder, res.fs, path2, env2).started
  {
  }

  /** What the loop met before it saw the cleared flag, and whether saveAsWav's mkdirs would succeed. */
  datatype StopEnv = StopEnv(results: seq<DeviceRead>, mkdirsSucceeds: bool)

  datatype StopResult = StopResult(recorder: Recorder, fs: FileSystem)

  /** The file the joined loop leaves behind: nothing unless its Int total is positive. */
  function FinishLoop(r: Recorder, fs: FileSystem, env: StopEnv): FileSystem {
    if !r.loopStarted then fs
    else
      var result := RecordingLoop(r.bufferSize, env.results);
      if SavesFile(result) then SaveAsWav(fs, r.outputFile, result.blocks, env.mkdirsSucceeds) else fs
  }

  /** stopRecording: a no-op when idle; otherwise clear the flag, join the loop (which writes the
      file), stop and release the device. */
  function StopRecording(r: Recorder, fs: FileSystem, env: StopEnv): (res: StopResult)
    ensures !r.recording ==> res == StopResult(r, fs)
    ensures r.recording ==> !res.recorder.recording && res.recorder.device == NoDevice && !res.recorder.loopStarted
    ensures r.recording ==> res.recorder.outputFile == r.outputFile
  {
    if !r.recording then StopResult(r, fs)
    else
      StopResult(r.(recording := false, device := NoDevice, loopStarted := false), FinishLoop(r, fs, env))
  }

  /** The corrected start and stop both keep the recorder's invariant. */
  lemma StartStopPreserveValid(r: Recorder, fs: FileSystem, path: Path, start: StartEnv, stop: StopEnv)
    requires Valid(r)
    ensures Valid(StartRecording(r, fs, path, start).recorder)
    ensures Valid(StopRecording(r, fs, stop).recorder)
  {
  }

  /** As written, start keeps the recorder's invariant exactly when it is not the case that the
      device throws after the flag was set; in that case the flag stays set with no capture loop. */
  lemma AsWrittenStartBreaksValid(r: Recorder, fs: FileSystem, path: Path, env: StartEnv)
    requires Valid(r)
    ensures var r' := StartRecordingAsWritten(r, fs, path, env).recorder;
      Valid(r') <==> !ThrowsAfterFlag(r, fs, path, env)
    ensures ThrowsAfterFlag(r, fs, path, env) ==>
      var r' := StartRecordingAsWritten(r, fs, path, env).recorder;
      r'.recording && !r'.loopStarted
  {
  }

  /** What the code as written does keep: start and stop leave the fields consistent with each
      other, and a stop restores the full invariant. */
  lemma AsWrittenStartStopConsistent(r: Recorder, fs: FileSystem, path: Path, start: StartEnv, stop: StopEnv)
    requires Consistent(r)
    ensures Consistent(StartRecordingAsWritten(r, fs, path, start).recorder)
    ensures Consistent(StopRecording(r, fs, stop).recorder)
    ensures Valid(StopRecording(r, fs, stop).recorder)
  {
  }

  /** A second start while recording is refused and changes nothing; the first start from a fresh
      recorder with permission, a parent directory and a working device starts the loop. */
  lemma StartWhileRecordingRefused(r: Recorder, fs: FileSystem, path: Path, env: StartEnv)
    requires r.recording
    ensures StartRecording(r, fs, path, env) == StartResult(r, fs, false)
  {
  }

  /** The file a stop leaves at the output path, for a started loop, a well-behaved device, an
      existing parent directory and no directory in the way: the WAV of the delivered blocks when any
      data arrived before the first error, replacing an earlier recording at that path (two sessions
      created in the same minute share one folder), and the file system as it was otherwise. */
  lemma StopWritesRecording(r: Recorder, fs: FileSystem, env: StopEnv)
    requires Consistent(r) && r.recording && r.loopStarted
    requires WellBehaved(env.results, r.bufferSize)
    requires TotalSize(Delivered(BeforeError(env.results))) < Two31
    requires ParentOf(r.outputFile.value).Some? && ParentOf(r.outputFile.value).value in fs
    requires fs[ParentOf(r.outputFile.value).value].Directory?
    requires !(r.outputFile.value in fs && fs[r.outputFile.value].Directory?)
    ensures var fs' := StopRecording(r, fs, env).fs;
      var captured := Delivered(BeforeError(env.results));
      (TotalSize(captured) > 0 ==> fs' == fs[r.outputFile.value := Audio(WavFile(captured))])
      && (TotalSize(captured) == 0 ==> fs' == fs)
  {
    SavesFileIffDataCaptured(r.bufferSize, env.results);
  }
}
