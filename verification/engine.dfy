/** GemmaAudioEngine: the four nullable model handles as a small resource state machine, the
    retry policy of transcribeAudio, the handle discipline of generateSummary, and the way a
    generation's outcome is turned into result text. The model runtime itself is an oracle: every
    creation, read and generation outcome is an input. Handles get fresh numbers when created, and
    the event log records every creation, close and query so that leaks and ordering can be stated. */
module GemmaEngine {
  import opened Base
  import opened Files
  import opened KotlinText

  // ---------------------------------------------------------------------------
  // Handles and the event log
  // ---------------------------------------------------------------------------

  datatype Slot = Null | Live(id: nat)

  datatype Kind = TranscriptionEngine | TranscriptionSession | SummarizationEngine | SummarizationSession

  predicate IsTranscription(k: Kind) {
    k == TranscriptionEngine || k == TranscriptionSession
  }

  datatype Event = Created(kind: Kind, id: nat) | Closed(kind: Kind, id: nat) | Queried(kind: Kind, prompt: string)

  datatype Engine = Engine(
    transcriptionEngine: Slot,
    transcriptionSession: Slot,
    summarizationEngine: Slot,
    summarizationSession: Slot,
    nextId: nat,
    log: seq<Event>)

  /** A new GemmaAudioEngine: four null handles, nothing happened yet. */
  const Initial: Engine := Engine(Null, Null, Null, Null, 0, [])

  function Get(e: Engine, k: Kind): Slot {
    match k
    case TranscriptionEngine => e.transcriptionEngine
    case TranscriptionSession => e.transcriptionSession
    case SummarizationEngine => e.summarizationEngine
    case SummarizationSession => e.summarizationSession
  }

  function Put(e: Engine, k: Kind, s: Slot): (r: Engine)
    ensures Get(r, k) == s
    ensures forall j :: j != k ==> Get(r, j) == Get(e, j)
    ensures r.nextId == e.nextId && r.log == e.log
  {
    match k
    case TranscriptionEngine => e.(transcriptionEngine := s)
    case TranscriptionSession => e.(transcriptionSession := s)
    case SummarizationEngine => e.(summarizationEngine := s)
    case SummarizationSession => e.(summarizationSession := s)
  }

  /** The open handles after one more event. */
  function Apply(open: set<nat>, ev: Event): set<nat> {
    match ev
    case Created(_, id) => open + {id}
    case Closed(_, id) => open - {id}
    case Queried(_, _) => open
  }

  /** The handles created and not yet closed, replaying the log. */
  function Open(log: seq<Event>): set<nat> {
    if |log| == 0 then {} else Apply(Open(log[..|log| - 1]), log[|log| - 1])
  }

  lemma OpenAppend(log: seq<Event>, ev: Event)
    ensures Open(log + [ev]) == Apply(Open(log), ev)
  {
    assert (log + [ev])[..|log|] == log;
  }

  function SlotIds(s: Slot): set<nat> {
    if s.Live? then {s.id} else {}
  }

  /** The handles the four fields refer to. */
  function LiveIds(e: Engine): set<nat> {
    SlotIds(e.transcriptionEngine) + SlotIds(e.transcriptionSession)
      + SlotIds(e.summarizationEngine) + SlotIds(e.summarizationSession)
  }

  /** No handle is lost: the open handles are exactly those the fields hold, no two fields share
      one, and every one was numbered before `nextId`. */
  predicate Accounted(e: Engine) {
    && Open(e.log) == LiveIds(e)
    && (forall k1: Kind, k2: Kind :: k1 != k2 && Get(e, k1).Live? && Get(e, k2).Live? ==> Get(e, k1).id != Get(e, k2).id)
    && (forall k: Kind :: Get(e, k).Live? ==> Get(e, k).id < e.nextId)
  }

  predicate AllNull(e: Engine) {
    forall k: Kind :: Get(e, k) == Null
  }

  /** `longer` begins with `shorter`. */
  predicate Extends(longer: seq<Event>, shorter: seq<Event>) {
    |shorter| <= |longer| && forall i :: 0 <= i < |shorter| ==> longer[i] == shorter[i]
  }

  /** The four fields, spelled out from the per-kind facts. */
  lemma SameOtherFields(e: Engine, k: Kind, r: Engine)
    requires forall j :: j != k ==> Get(r, j) == Get(e, j)
    ensures k != TranscriptionEngine ==> r.transcriptionEngine == e.transcriptionEngine
    ensures k != TranscriptionSession ==> r.transcriptionSession == e.transcriptionSession
    ensures k != SummarizationEngine ==> r.summarizationEngine == e.summarizationEngine
    ensures k != SummarizationSession ==> r.summarizationSession == e.summarizationSession
  {
    assert k != TranscriptionEngine ==> Get(r, TranscriptionEngine) == Get(e, TranscriptionEngine);
    assert k != TranscriptionSession ==> Get(r, TranscriptionSession) == Get(e, TranscriptionSession);
    assert k != SummarizationEngine ==> Get(r, SummarizationEngine) == Get(e, SummarizationEngine);
    assert k != SummarizationSession ==> Get(r, SummarizationSession) == Get(e, SummarizationSession);
  }

  lemma CreateAdds(e: Engine, k: Kind, r: Engine)
    requires Get(e, k).Null? && Get(r, k) == Live(e.nextId)
    requires forall j :: j != k ==> Get(r, j) == Get(e, j)
    ensures LiveIds(r) == LiveIds(e) + {e.nextId}
  {
    SameOtherFields(e, k, r);
  }

  lemma CloseRemoves(e: Engine, k: Kind, r: Engine)
    requires Accounted(e) && Get(e, k).Live? && Get(r, k).Null?
    requires forall j :: j != k ==> Get(r, j) == Get(e, j)
    ensures LiveIds(r) == LiveIds(e) - {Get(e, k).id}
  {
    SameOtherFields(e, k, r);
    var x := Get(e, k).id;
    assert k != TranscriptionEngine ==> x !in SlotIds(e.transcriptionEngine) by {
      if k != TranscriptionEngine && e.transcriptionEngine.Live? { assert Get(e, TranscriptionEngine).Live?; }
    }
    assert k != TranscriptionSession ==> x !in SlotIds(e.transcriptionSession) by {
      if k != TranscriptionSession && e.transcriptionSession.Live? { assert Get(e, TranscriptionSession).Live?; }
    }
    assert k != SummarizationEngine ==> x !in SlotIds(e.summarizationEngine) by {
      if k != SummarizationEngine && e.summarizationEngine.Live? { assert Get(e, SummarizationEngine).Live?; }
    }
    assert k != SummarizationSession ==> x !in SlotIds(e.summarizationSession) by {
      if k != SummarizationSession && e.summarizationSession.Live? { assert Get(e, SummarizationSession).Live?; }
    }
  }

  /** x = createFromOptions(...): a new handle in the field of kind `k`. */
  function Create(e: Engine, k: Kind): (r: Engine)
    ensures Get(r, k) == Live(e.nextId)
    ensures forall j :: j != k ==> Get(r, j) == Get(e, j)
    ensures r.log == e.log + [Created(k, e.nextId)] && r.nextId == e.nextId + 1
    ensures Accounted(e) && Get(e, k).Null? ==> Accounted(r)
  {
    var r := Put(e, k, Live(e.nextId)).(nextId := e.nextId + 1, log := e.log + [Created(k, e.nextId)]);
    OpenAppend(e.log, Created(k, e.nextId));
    if Get(e, k).Null? then CreateAdds(e, k, r); r else r
  }

  /** x?.close(); x = null */
  function Close(e: Engine, k: Kind): (r: Engine)
    ensures Get(r, k) == Null
    ensures forall j :: j != k ==> Get(r, j) == Get(e, j)
    ensures r.nextId == e.nextId
    ensures r.log == if Get(e, k).Live? then e.log + [Closed(k, Get(e, k).id)] else e.log
    ensures Accounted(e) ==> Accounted(r)
  {
    match Get(e, k)
    case Null => e
    case Live(id) =>
      var r := Put(e, k, Null).(log := e.log + [Closed(k, id)]);
      OpenAppend(e.log, Closed(k, id));
      if Accounted(e) then CloseRemoves(e, k, r); r else r
  }

  /** cleanupTranscriptionResources (close is assumed not to throw): session first, then engine. */
  function CleanupTranscription(e: Engine): (r: Engine)
    ensures Get(r, TranscriptionEngine) == Null && Get(r, TranscriptionSession) == Null
    ensures Get(r, SummarizationEngine) == Get(e, SummarizationEngine)
    ensures Get(r, SummarizationSession) == Get(e, SummarizationSession)
    ensures r.nextId == e.nextId
    ensures forall i :: |e.log| <= i < |r.log| ==> r.log[i].Closed? && IsTranscription(r.log[i].kind)
    ensures Extends(r.log, e.log)
    ensures Accounted(e) ==> Accounted(r)
  {
    Close(Close(e, TranscriptionSession), TranscriptionEngine)
  }

  /** cleanupSummarizationResources: session first, then engine. */
  function CleanupSummarization(e: Engine): (r: Engine)
    ensures Get(r, SummarizationEngine) == Null && Get(r, SummarizationSession) == Null
    ensures Get(r, TranscriptionEngine) == Get(e, TranscriptionEngine)
    ensures Get(r, TranscriptionSession) == Get(e, TranscriptionSession)
    ensures r.nextId == e.nextId
    ensures forall i :: |e.log| <= i < |r.log| ==> r.log[i].Closed? && !IsTranscription(r.log[i].kind)
    ensures Extends(r.log, e.log)
    ensures Accounted(e) ==> Accounted(r)
  {
    Close(Close(e, SummarizationSession), SummarizationEngine)
  }

  /** cleanup(): every field null; with nothing lost beforehand, nothing is left open. */
  function Cleanup(e: Engine): (r: Engine)
    ensures AllNull(r)
    ensures Accounted(e) ==> Accounted(r) && Open(r.log) == {}
  {
    CleanupSummarization(CleanupTranscription(e))
  }

  /** A second cleanup finds nothing to do. */
  lemma CleanupIdempotent(e: Engine)
    ensures Cleanup(Cleanup(e)) == Cleanup(e)
  {
  }

  // ---------------------------------------------------------------------------
  // Initialisation
  // ---------------------------------------------------------------------------

  /** How createFromOptions behaves for the engine and then for the session. */
  datatype InitOutcome = InitOk | EngineCreateFails(error: Exception) | SessionCreateFails(error: Exception)

  /** The engine after a step, and the exception the step threw, if any. */
  datatype Step = Step(engine: Engine, thrown: Option<Exception>)

  /** initialize*Engine as written: the engine field is assigned before the session is created, and
      neither old field is closed first; an exception is logged and rethrown. */
  function InitPair(e: Engine, engineKind: Kind, sessionKind: Kind, outcome: InitOutcome): (s: Step)
    requires engineKind != sessionKind
    ensures s.thrown.None? <==> outcome.InitOk?
    ensures s.thrown.Some? ==> s.thrown.value == outcome.error
    ensures outcome.InitOk? ==> Get(s.engine, engineKind).Live? && Get(s.engine, sessionKind).Live?
    ensures forall j :: j != engineKind && j != sessionKind ==> Get(s.engine, j) == Get(e, j)
    ensures forall i :: |e.log| <= i < |s.engine.log| ==>
      s.engine.log[i].Created? && s.engine.log[i].kind in {engineKind, sessionKind}
    ensures Extends(s.engine.log, e.log)
    ensures Accounted(e) && Get(e, engineKind).Null? && Get(e, sessionKind).Null? ==> Accounted(s.engine)
  {
    match outcome
    case EngineCreateFails(x) => Step(e, Some(x))
    case SessionCreateFails(x) => Step(Create(e, engineKind), Some(x))
    case InitOk => Step(Create(Create(e, engineKind), sessionKind), None)
  }

  /** initializeTranscriptionEngine as written. */
  function InitTranscriptionAsWritten(e: Engine, outcome: InitOutcome): (s: Step)
    ensures outcome.SessionCreateFails? ==>
      Get(s.engine, TranscriptionEngine) == Live(e.nextId) && Get(s.engine, TranscriptionSession) == Get(e, TranscriptionSession)
  {
    InitPair(e, TranscriptionEngine, TranscriptionSession, outcome)
  }

  /** initializeTranscriptionEngine with its catch block releasing what it created before rethrowing:
      afterwards either both handles are live or both are null. */
  function InitTranscription(e: Engine, outcome: InitOutcome): (s: Step)
    ensures s.thrown.None? <==> outcome.InitOk?
    ensures s.thrown.Some? ==> s.thrown.value == outcome.error
    ensures outcome.InitOk? ==> Get(s.engine, TranscriptionEngine).Live? && Get(s.engine, TranscriptionSession).Live?
    ensures !outcome.InitOk? ==> Get(s.engine, TranscriptionEngine).Null? && Get(s.engine, TranscriptionSession).Null?
    ensures Get(s.engine, SummarizationEngine) == Get(e, SummarizationEngine)
    ensures Get(s.engine, SummarizationSession) == Get(e, SummarizationSession)
    ensures Accounted(e) && Get(e, TranscriptionEngine).Null? && Get(e, TranscriptionSession).Null? ==> Accounted(s.engine)
  {
    var s := InitPair(e, TranscriptionEngine, TranscriptionSession, outcome);
    if s.thrown.Some? then Step(CleanupTranscription(s.engine), s.thrown) else s
  }

  // ---------------------------------------------------------------------------
  // Result composition
  // ---------------------------------------------------------------------------

  /** How a generateResponseAsync call ends: `done` after these partial results, the latch timing
      out with these partial results collected, the result callback throwing (with this message),
      or addQueryChunk/addAudio/generateResponseAsync throwing. */
  datatype Generation =
    | Completed(partials: seq<string>)
    | TimedOut(partials: seq<string>)
    | CallbackFailed(message: Option<string>)
    | SetupFailed(error: Exception)

  /** The partial results in arrival order. */
  function Concat(ps: seq<string>): string {
    if |ps| == 0 then "" else ps[0] + Concat(ps[1..])
  }

  /** The StringBuilder the callback appends to, one partial result at a time. */
  function Builder(ps: seq<string>): string {
    if |ps| == 0 then "" else Builder(ps[..|ps| - 1]) + ps[|ps| - 1]
  }

  lemma {:induction false} ConcatAppend(ps: seq<string>, qs: seq<string>)
    ensures Concat(ps + qs) == Concat(ps) + Concat(qs)
  {
    if |ps| > 0 {
      assert (ps + qs)[1..] == ps[1..] + qs;
      ConcatAppend(ps[1..], qs);
    } else {
      assert ps + qs == qs;
    }
  }

  /** Appending partial results as they arrive builds their in-order concatenation. */
  lemma {:induction false} BuilderIsConcat(ps: seq<string>)
    ensures Builder(ps) == Concat(ps)
  {
    if |ps| > 0 {
      var init := ps[..|ps| - 1];
      BuilderIsConcat(init);
      ConcatAppend(init, [ps[|ps| - 1]]);
      assert init + [ps[|ps| - 1]] == ps;
    }
  }

  const UnknownCallbackError: string := "Unknown error in response callback"
  const ProcessingErrorPrefix: string := "Processing error: "

  /** The string process*WithSession resumes with; every outcome is a normal return value. */
  function ResultText(g: Generation, timeoutPrefix: string, errorPrefix: string): (r: string)
    ensures g.Completed? ==> r == Builder(g.partials)
    ensures g.TimedOut? ==> |timeoutPrefix| <= |r| && r[..|timeoutPrefix|] == timeoutPrefix && r[|timeoutPrefix|..] == Builder(g.partials)
    ensures g.CallbackFailed? ==>
      |errorPrefix| <= |r| && r[..|errorPrefix|] == errorPrefix && r[|errorPrefix|..] == (if g.message.Some? then g.message.value else UnknownCallbackError)
    ensures g.SetupFailed? ==>
      |ProcessingErrorPrefix| <= |r| && r[..|ProcessingErrorPrefix|] == ProcessingErrorPrefix && r[|ProcessingErrorPrefix|..] == MessageText(g.error)
  {
    BuilderIsConcat(match g case Completed(ps) => ps case TimedOut(ps) => ps case _ => []);
    match g
    case Completed(ps) => Concat(ps)
    case TimedOut(ps) => timeoutPrefix + Concat(ps)
    case CallbackFailed(m) => errorPrefix + m.GetOr(UnknownCallbackError)
    case SetupFailed(x) => ProcessingErrorPrefix + MessageText(x)
  }

  /** processAudioWithSession's result text. */
  function AudioResultText(g: Generation): string {
    ResultText(g, "Transcription timeout - partial result: ", "Error during transcription: ")
  }

  /** processTextWithSession's result text. */
  function TextResultText(g: Generation): string {
    ResultText(g, "Summarization timeout - partial result: ", "Error during summarization: ")
  }

  // ---------------------------------------------------------------------------
  // Prompts
  // ---------------------------------------------------------------------------

  function Spaces(n: nat): (s: string)
    ensures |s| == n && forall i :: 0 <= i < n ==> s[i] == ' '
  {
    seq(n, _ => ' ')
  }

  /** A line of a raw string literal as it sits in the source: 16 columns in, empty lines empty. */
  function Indented(l: string): string {
    if l == "" then "" else Spaces(16) + l
  }

  function IndentAll(ls: seq<string>): (r: seq<string>)
    ensures |r| == |ls|
  {
    seq(|ls|, i requires 0 <= i < |ls| => Indented(ls[i]))
  }

  const TranscriptionInstruction: string :=
    "Transcribe and translate this audio to English. If the speech is in any language other than English, provide an accurate English translation. If the speech is already in English, transcribe it exactly. Be accurate and maintain the original meaning. Only return the transcribed/translated text without any additional commentary."

  /** The transcription prompt: a one-line raw string, trimIndent()ed. */
  function TranscriptionPrompt(): string {
    TrimIndent("\n" + Indented(TranscriptionInstruction) + "\n" + Spaces(12))
  }

  /** The lines of the summarisation prompt above the transcript. */
  const SummaryIntro: seq<string> := [
    "The following is a transcription of a meeting recorded in chunks. Each chunk represents approximately 30 seconds of audio and has been transcribed and translated to English. Please create a comprehensive meeting summary that includes:",
    "",
    "1. Key discussion points",
    "2. Important decisions made",
    "3. Action items identified",
    "4. Next steps planned",
    "5. Main outcomes",
    "",
    "Format the summary in a clear, organized manner with appropriate headings. Here is the full transcription:",
    ""]

  /** The raw string of generateSummary with the transcript interpolated, before trimIndent(). */
  function SummaryTemplate(transcript: string): string {
    "\n" + Join(IndentAll(SummaryIntro)) + "\n" + Spaces(16) + transcript + "\n" + Spaces(12)
  }

  /** The summarisation prompt as written: trimIndent() runs after the transcript was interpolated,
      so it re-splits and re-joins the transcript's own lines. */
  function SummaryPromptAsWritten(transcript: string): string {
    TrimIndent(SummaryTemplate(transcript))
  }

  /** The intro, trimIndent()ed on its own, and the break that precedes the transcript. */
  function SummaryHead(): string {
    TrimIndent("\n" + Join(IndentAll(SummaryIntro)) + "\n" + Spaces(12)) + "\n"
  }

  /** The summarisation prompt with the transcript appended after trimming the intro: the transcript
      follows the head unchanged. */
  function SummaryPrompt(transcript: string): (p: string)
    ensures |p| == |SummaryHead()| + |transcript|
    ensures p[..|SummaryHead()|] == SummaryHead() && p[|SummaryHead()|..] == transcript
  {
    SummaryHead() + transcript
  }

  /** The prompt generateSummary sends: as written, or with the transcript appended after trimming. */
  function SummaryPromptFor(transcript: string, corrected: bool): string {
    if corrected then SummaryPrompt(transcript) else SummaryPromptAsWritten(transcript)
  }

  lemma {:induction false} JoinKeepsNoCarriageReturn(ls: seq<string>)
    requires forall i :: 0 <= i < |ls| ==> NoBreaks(ls[i])
    ensures forall j :: 0 <= j < |Join(ls)| ==> Join(ls)[j] != '\r'
  {
    if |ls| > 1 {
      JoinKeepsNoCarriageReturn(ls[1..]);
      var s := Join(ls);
      assert s == ls[0] + "\n" + Join(ls[1..]);
      forall j | 0 <= j < |s| ensures s[j] != '\r' {
        if j < |ls[0]| {
          assert s[j] == ls[0][j];
        } else if j > |ls[0]| {
          assert s[j] == Join(ls[1..])[j - |ls[0]| - 1];
        }
      }
    }
  }

  /** Whatever the transcript, the as-written prompt holds no carriage return: lines() splits at
      "\r\n" and "\r" and the lines are joined with "\n". */
  lemma AsWrittenHasNoCarriageReturn(transcript: string)
    ensures forall j :: 0 <= j < |SummaryPromptAsWritten(transcript)| ==> SummaryPromptAsWritten(transcript)[j] != '\r'
  {
    var ls := Lines(SummaryTemplate(transcript));
    var out := Reindent(ls, MinIndent(ls));
    forall i | 0 <= i < |out| ensures NoBreaks(out[i]) {
      var a := if |ls| > 0 && IsBlank(ls[0]) then 1 else 0;
      assert out[i] == Drop(ls[a + i], MinIndent(ls));
      assert NoBreaks(ls[a + i]);
    }
    JoinKeepsNoCarriageReturn(out);
  }

  /** A transcript with a carriage return (a model reply with Windows line ends) is not embedded
      verbatim by the code as written, while the corrected prompt embeds it unchanged. */
  lemma AsWrittenAltersTranscript(transcript: string, k: nat)
    requires k < |transcript| && transcript[k] == '\r'
    ensures SummaryPromptAsWritten(transcript) != SummaryPrompt(transcript)
    ensures SummaryPrompt(transcript)[|SummaryHead()|..] == transcript
  {
    AsWrittenHasNoCarriageReturn(transcript);
    var p := SummaryPrompt(transcript);
    assert p[|SummaryHead()| + k] == '\r';
  }

  /** The transcript of a single chunk whose reply ended with "\r\n". */
  lemma CarriageReturnExample()
    ensures SummaryPromptAsWritten("Chunk 1: hello\r\n\n\n") != SummaryPrompt("Chunk 1: hello\r\n\n\n")
  {
    var t := "Chunk 1: hello\r\n\n\n";
    assert t[14] == '\r';
    AsWrittenAltersTranscript(t, 14);
  }

  // ---------------------------------------------------------------------------
  // transcribeAudio
  // ---------------------------------------------------------------------------

  /** One attempt's answers from the environment: how initialisation goes (if it runs), whether
      reading the file throws, and how the generation ends. */
  datatype Attempt = Attempt(init: InitOutcome, readFault: Option<Exception>, generation: Generation)

  datatype Outcome = Outcome(engine: Engine, result: Result<string>)

  /** addQueryChunk(prompt) and the generation on the session of kind `k`. */
  function Query(e: Engine, k: Kind, prompt: string): (r: Engine)
    ensures forall j :: Get(r, j) == Get(e, j)
    ensures r.log == e.log + [Queried(k, prompt)]
    ensures Accounted(r) <==> Accounted(e)
  {
    var r := e.(log := e.log + [Queried(k, prompt)]);
    OpenAppend(e.log, Queried(k, prompt));
    r
  }

  function InitTranscriptionWith(e: Engine, outcome: InitOutcome, corrected: bool): Step {
    if corrected then InitTranscription(e, outcome) else InitTranscriptionAsWritten(e, outcome)
  }

  /** Whether the first attempt throws into the retry: initialisation ran and failed, or the read failed. */
  predicate FirstAttemptThrows(e: Engine, first: Attempt) {
    var needInit := Get(e, TranscriptionEngine).Null? || Get(e, TranscriptionSession).Null?;
    (needInit && !first.init.InitOk?) || first.readFault.Some?
  }

  /** The retry: release the transcription handles, initialise again, read again, generate. */
  function Retry(e: Engine, retry: Attempt, corrected: bool): (o: Outcome)
    ensures o.result.Failure? <==> !retry.init.InitOk? || retry.readFault.Some?
    ensures !retry.init.InitOk? ==> o.result == Failure(retry.init.error)
    ensures retry.init.InitOk? && retry.readFault.Some? ==> o.result == Failure(retry.readFault.value)
    ensures o.result.Success? ==> o.result.value == AudioResultText(retry.generation)
  {
    var e1 := CleanupTranscription(e);
    var s := InitTranscriptionWith(e1, retry.init, corrected);
    if s.thrown.Some? then Outcome(s.engine, Failure(s.thrown.value))
    else if retry.readFault.Some? then Outcome(s.engine, Failure(retry.readFault.value))
    else if Get(s.engine, TranscriptionSession).Null? then
      Outcome(s.engine, Failure(Exception(Some("Retry failed: session not initialized"))))
    else Outcome(Query(s.engine, TranscriptionSession, TranscriptionPrompt()), Success(AudioResultText(retry.generation)))
  }

  /** transcribeAudio, with the as-written or the corrected initialisation. */
  function Transcribe(e: Engine, fs: FileSystem, path: Path, first: Attempt, retry: Attempt, corrected: bool): (o: Outcome)
    ensures path !in fs ==> o == Outcome(e, Failure(Exception(Some("Audio file not found: " + path))))
    ensures path in fs ==> (o.result.Failure? <==> FirstAttemptThrows(e, first) && (!retry.init.InitOk? || retry.readFault.Some?))
    ensures path in fs && o.result.Success? ==>
      o.result.value == if FirstAttemptThrows(e, first) then AudioResultText(retry.generation) else AudioResultText(first.generation)
    ensures path in fs && o.result.Failure? ==>
      o.result.error == if !retry.init.InitOk? then retry.init.error else retry.readFault.value
  {
    if path !in fs then Outcome(e, Failure(Exception(Some("Audio file not found: " + path))))
    else
      var needInit := Get(e, TranscriptionEngine).Null? || Get(e, TranscriptionSession).Null?;
      var s1 := if needInit then InitTranscriptionWith(e, first.init, corrected) else Step(e, None);
      if s1.thrown.Some? then Retry(s1.engine, retry, corrected)
      else if Get(s1.engine, TranscriptionSession).Null? then
        Outcome(s1.engine, Failure(Exception(Some("Transcription session not initialized"))))
      else if first.readFault.Some? then Retry(s1.engine, retry, corrected)
      else Outcome(Query(s1.engine, TranscriptionSession, TranscriptionPrompt()), Success(AudioResultText(first.generation)))
  }

  function TranscribeAudioAsWritten(e: Engine, fs: FileSystem, path: Path, first: Attempt, retry: Attempt): Outcome {
    Transcribe(e, fs, path, first, retry, false)
  }

  /** Nothing lost and no summarisation handle held. */
  predicate Settled(e: Engine) {
    Accounted(e) && Get(e, SummarizationEngine).Null? && Get(e, SummarizationSession).Null?
  }

  /** The engine invariant the corrected class keeps: settled, with the transcription handles live
      or null together. */
  predicate Valid(e: Engine) {
    Settled(e) && (Get(e, TranscriptionEngine).Live? <==> Get(e, TranscriptionSession).Live?)
  }

  lemma InitialValid()
    ensures Valid(Initial) && AllNull(Initial)
  {
    assert LiveIds(Initial) == {};
  }

  /** transcribeAudio with the corrected initialisation: it keeps the engine invariant, and an
      existing pair of handles is reused rather than re-created when the first attempt goes through. */
  method TranscribeAudio(e: Engine, fs: FileSystem, path: Path, first: Attempt, retry: Attempt) returns (o: Outcome)
    ensures Valid(e) ==> Valid(o.engine)
    ensures path in fs && Get(e, TranscriptionSession).Live? && Get(e, TranscriptionEngine).Live? && first.readFault.None? ==>
      (forall k :: Get(o.engine, k) == Get(e, k)) && o.result == Success(AudioResultText(first.generation))
    ensures path !in fs ==> o.result == Failure(Exception(Some("Audio file not found: " + path)))
    ensures o.result.Success? ==>
      o.result.value == AudioResultText(first.generation) || o.result.value == AudioResultText(retry.generation)
  {
    TranscribeValid(e, fs, path, first, retry);
    o := Transcribe(e, fs, path, first, retry, true);
  }

  lemma RetryValid(e: Engine, retry: Attempt)
    requires Settled(e)
    ensures Valid(Retry(e, retry, true).engine)
  {
    var e1 := CleanupTranscription(e);
    var s := InitTranscription(e1, retry.init);
    if s.thrown.None? && retry.readFault.None? && Get(s.engine, TranscriptionSession).Live? {
      var _ := Query(s.engine, TranscriptionSession, TranscriptionPrompt());
    }
  }

  lemma TranscribeValid(e: Engine, fs: FileSystem, path: Path, first: Attempt, retry: Attempt)
    ensures Valid(e) ==> Valid(Transcribe(e, fs, path, first, retry, true).engine)
  {
    if Valid(e) && path in fs {
      var needInit := Get(e, TranscriptionEngine).Null? || Get(e, TranscriptionSession).Null?;
      var s1 := if needInit then InitTranscription(e, first.init) else Step(e, None);
      if s1.thrown.Some? || first.readFault.Some? {
        RetryValid(s1.engine, retry);
      }
    }
  }

  /** The correction changes no result: the two initialisations differ only in the handles they
      leave behind. */
  lemma TranscribeResultIndependent(e: Engine, fs: FileSystem, path: Path, first: Attempt, retry: Attempt)
    ensures Transcribe(e, fs, path, first, retry, false).result == Transcribe(e, fs, path, first, retry, true).result
  {
  }

  /** As written, the retry still loses nothing: it releases both transcription handles before it
      initialises again. */
  lemma RetryAsWrittenSettled(e: Engine, retry: Attempt)
    requires Settled(e)
    ensures Settled(Retry(e, retry, false).engine)
  {
    var e1 := CleanupTranscription(e);
    var s := InitPair(e1, TranscriptionEngine, TranscriptionSession, retry.init);
    if s.thrown.None? && retry.readFault.None? && Get(s.engine, TranscriptionSession).Live? {
      var _ := Query(s.engine, TranscriptionSession, TranscriptionPrompt());
    }
  }

  /** As written, one transcribeAudio call from a valid engine loses nothing either: every
      initialisation it runs starts from two null transcription handles. It may leave the engine
      live without a session, which only the next call can trip over. */
  lemma TranscribeAsWrittenSettled(e: Engine, fs: FileSystem, path: Path, first: Attempt, retry: Attempt)
    requires Valid(e)
    ensures Settled(Transcribe(e, fs, path, first, retry, false).engine)
  {
    if path in fs {
      var needInit := Get(e, TranscriptionEngine).Null? || Get(e, TranscriptionSession).Null?;
      var s1 := if needInit then InitPair(e, TranscriptionEngine, TranscriptionSession, first.init) else Step(e, None);
      if s1.thrown.Some? || first.readFault.Some? {
        RetryAsWrittenSettled(s1.engine, retry);
      } else if Get(s1.engine, TranscriptionSession).Live? {
        var _ := Query(s1.engine, TranscriptionSession, TranscriptionPrompt());
      }
    }
  }

  /** transcribeAudio as the class is written, called once on a valid engine: the same result as the
      corrected class, nothing lost, and an existing pair of handles reused when the first attempt
      goes through. */
  method TranscribeOnce(e: Engine, fs: FileSystem, path: Path, first: Attempt, retry: Attempt) returns (o: Outcome)
    ensures o.result == Transcribe(e, fs, path, first, retry, true).result
    ensures Valid(e) ==> Settled(o.engine)
    ensures path in fs && Get(e, TranscriptionSession).Live? && Get(e, TranscriptionEngine).Live? && first.readFault.None? ==>
      (forall k :: Get(o.engine, k) == Get(e, k)) && o.result == Success(AudioResultText(first.generation))
    ensures path !in fs ==> o.result == Failure(Exception(Some("Audio file not found: " + path)))
    ensures o.result.Success? ==>
      o.result.value == AudioResultText(first.generation) || o.result.value == AudioResultText(retry.generation)
  {
    TranscribeResultIndependent(e, fs, path, first, retry);
    if Valid(e) {
      TranscribeAsWrittenSettled(e, fs, path, first, retry);
    }
    o := Transcribe(e, fs, path, first, retry, false);
  }

  /** As written, initialisation over a live engine without a session assigns a new engine to the
      field without closing the old one, which stays open with no field referring to it. */
  lemma InitOverLiveEngineLeaks(e: Engine)
    requires Accounted(e)
    requires Get(e, TranscriptionEngine).Live? && Get(e, TranscriptionSession).Null?
    ensures !Accounted(InitTranscriptionAsWritten(e, InitOk).engine)
  {
    var x := Get(e, TranscriptionEngine).id;
    var e1 := Create(e, TranscriptionEngine);
    var e2 := Create(e1, TranscriptionSession);
    assert x in LiveIds(e);
    OpenAppend(e.log, Created(TranscriptionEngine, e.nextId));
    OpenAppend(e1.log, Created(TranscriptionSession, e1.nextId));
    assert x in Open(e2.log);
    SameOtherFields(e, TranscriptionEngine, e1);
    SameOtherFields(e1, TranscriptionSession, e2);
    assert e.summarizationEngine.Live? ==> e.summarizationEngine.id != x by {
      if e.summarizationEngine.Live? { assert Get(e, SummarizationEngine).Live?; }
    }
    assert e.summarizationSession.Live? ==> e.summarizationSession.id != x by {
      if e.summarizationSession.Live? { assert Get(e, SummarizationSession).Live?; }
    }
    assert x !in LiveIds(e2);
  }

  /** As written, a transcription whose session creation fails on both attempts leaves a live engine
      without a session, so the next transcribeAudio initialises over it and loses a handle. */
  lemma FailedSessionCreationThenLeak(e: Engine, fs: FileSystem, path: Path, x: Exception, g: Generation)
    requires Valid(e) && Get(e, TranscriptionEngine).Null? && path in fs
    ensures var failing := Attempt(SessionCreateFails(x), None, g);
      var o1 := TranscribeAudioAsWritten(e, fs, path, failing, failing);
      && o1.result == Failure(x)
      && Accounted(o1.engine)
      && Get(o1.engine, TranscriptionEngine).Live? && Get(o1.engine, TranscriptionSession).Null?
      && !Accounted(TranscribeAudioAsWritten(o1.engine, fs, path, Attempt(InitOk, None, g), failing).engine)
  {
    var failing := Attempt(SessionCreateFails(x), None, g);
    var s0 := InitPair(e, TranscriptionEngine, TranscriptionSession, SessionCreateFails(x));
    var e1 := CleanupTranscription(s0.engine);
    var s1 := InitPair(e1, TranscriptionEngine, TranscriptionSession, SessionCreateFails(x));
    var o1 := TranscribeAudioAsWritten(e, fs, path, failing, failing);
    assert Retry(s0.engine, failing, false) == Outcome(s1.engine, Failure(x));
    assert o1 == Outcome(s1.engine, Failure(x));
    InitOverLiveEngineLeaks(o1.engine);
    var s2 := InitTranscriptionAsWritten(o1.engine, InitOk);
    assert TranscribeAudioAsWritten(o1.engine, fs, path, Attempt(InitOk, None, g), failing).engine
      == Query(s2.engine, TranscriptionSession, TranscriptionPrompt());
  }

  /** The concrete case: a new engine, three failed session creations, then a successful one. */
  lemma TranscriptionInitLeaks(fs: FileSystem, path: Path, x: Exception, g: Generation)
    requires path in fs
    ensures var failing := Attempt(SessionCreateFails(x), None, g);
      var o1 := TranscribeAudioAsWritten(Initial, fs, path, failing, failing);
      !Accounted(TranscribeAudioAsWritten(o1.engine, fs, path, Attempt(InitOk, None, g), failing).engine)
  {
    InitialValid();
    FailedSessionCreationThenLeak(Initial, fs, path, x, g);
  }

  // ---------------------------------------------------------------------------
  // generateSummary
  // ---------------------------------------------------------------------------

  predicate TranscriptionClose(ev: Event) {
    ev.Closed? && IsTranscription(ev.kind)
  }

  /** From position `from` on, every transcription close comes before every summarisation creation. */
  predicate TranscriptionReleasedFirst(log: seq<Event>, from: nat) {
    forall i, j :: from <= i < j < |log| && log[i].Created? && !IsTranscription(log[i].kind) ==> !TranscriptionClose(log[j])
  }

  /** A log that, from `from` on, holds transcription closes up to `k` and none after. */
  lemma ReleasedFirstBySplit(log: seq<Event>, from: nat, k: nat)
    requires from <= k <= |log|
    requires forall i :: from <= i < k ==> TranscriptionClose(log[i])
    requires forall j :: k <= j < |log| ==> !TranscriptionClose(log[j])
    ensures TranscriptionReleasedFirst(log, from)
  {
  }

  /** The body of generateSummary after the transcription handles are released: initialise
      summarisation and query it with the prompt, as written or corrected. */
  function SummaryBody(e: Engine, transcript: string, init: InitOutcome, g: Generation, corrected: bool): (o: Outcome)
    ensures o.result.Failure? <==> !init.InitOk?
    ensures !init.InitOk? ==> o.result == Failure(init.error)
    ensures init.InitOk? ==> o.result == Success(TextResultText(g))
    ensures Get(o.engine, TranscriptionEngine) == Get(e, TranscriptionEngine)
    ensures Get(o.engine, TranscriptionSession) == Get(e, TranscriptionSession)
    ensures Extends(o.engine.log, e.log)
    ensures forall i :: |e.log| <= i < |o.engine.log| ==> !TranscriptionClose(o.engine.log[i])
    ensures init.InitOk? ==>
      |e.log| < |o.engine.log| && o.engine.log[|o.engine.log| - 1] == Queried(SummarizationSession, SummaryPromptFor(transcript, corrected))
    ensures !init.InitOk? ==> forall i :: |e.log| <= i < |o.engine.log| ==> o.engine.log[i].Created?
    ensures Accounted(e) && Get(e, SummarizationEngine).Null? && Get(e, SummarizationSession).Null? ==> Accounted(o.engine)
  {
    var s := InitPair(e, SummarizationEngine, SummarizationSession, init);
    if s.thrown.Some? then Outcome(s.engine, Failure(s.thrown.value))
    else if Get(s.engine, SummarizationSession).Null? then
      Outcome(s.engine, Failure(Exception(Some("Summarization session not initialized"))))
    else Outcome(Query(s.engine, SummarizationSession, SummaryPromptFor(transcript, corrected)), Success(TextResultText(g)))
  }

  /** generateSummary: release the transcription handles, run the body, and in the finally block
      release the summarisation handles. Every handle is null afterwards; the transcription handles
      were released before any summarisation handle was created; the prompt (as written or
      corrected) is queried exactly when initialisation succeeds; a settled engine ends valid. */
  method GenerateSummary(e: Engine, transcript: string, init: InitOutcome, g: Generation, corrected: bool) returns (o: Outcome)
    ensures o.result.Failure? <==> !init.InitOk?
    ensures !init.InitOk? ==> o.result == Failure(init.error)
    ensures init.InitOk? ==> o.result == Success(TextResultText(g))
    ensures AllNull(o.engine)
    ensures Extends(o.engine.log, e.log)
    ensures TranscriptionReleasedFirst(o.engine.log, |e.log|)
    ensures init.InitOk? <==>
      exists i :: |e.log| <= i < |o.engine.log| && o.engine.log[i] == Queried(SummarizationSession, SummaryPromptFor(transcript, corrected))
    ensures Settled(e) ==> Valid(o.engine)
  {
    var e1 := CleanupTranscription(e);
    var b := SummaryBody(e1, transcript, init, g, corrected);
    var r := CleanupSummarization(b.engine);
    SummaryLog(e.log, e1.log, b.engine.log, r.log, init.InitOk?, Queried(SummarizationSession, SummaryPromptFor(transcript, corrected)));
    o := Outcome(r, b.result);
  }

  /** The shape of generateSummary's log: transcription closes, then the body's events, then
      summarisation closes. */
  lemma SummaryLog(l0: seq<Event>, l1: seq<Event>, l2: seq<Event>, l3: seq<Event>, ok: bool, q: Event)
    requires q.Queried?
    requires Extends(l1, l0) && Extends(l2, l1) && Extends(l3, l2)
    requires forall i :: |l0| <= i < |l1| ==> TranscriptionClose(l1[i])
    requires forall i :: |l1| <= i < |l2| ==> !TranscriptionClose(l2[i])
    requires forall i :: |l2| <= i < |l3| ==> l3[i].Closed? && !IsTranscription(l3[i].kind)
    requires ok ==> |l1| < |l2| && l2[|l2| - 1] == q
    requires !ok ==> forall i :: |l1| <= i < |l2| ==> l2[i].Created?
    ensures Extends(l3, l0)
    ensures TranscriptionReleasedFirst(l3, |l0|)
    ensures ok <==> exists i :: |l0| <= i < |l3| && l3[i] == q
  {
    forall i | |l0| <= i < |l1| ensures TranscriptionClose(l3[i]) {
      assert l3[i] == l2[i] == l1[i];
    }
    forall i | |l1| <= i < |l3| ensures !TranscriptionClose(l3[i]) {
      if i < |l2| { assert l3[i] == l2[i]; }
    }
    ReleasedFirstBySplit(l3, |l0|, |l1|);
    if ok {
      assert l3[|l2| - 1] == q;
    } else {
      forall i | |l0| <= i < |l3| ensures l3[i] != q {
        if i < |l1| { assert l3[i] == l1[i]; }
        else if i < |l2| { assert l3[i] == l2[i]; }
      }
    }
  }

  /** The engine's answers for one transcribeAudio call: its first attempt and its retry. */
  datatype Attempts = Attempts(first: Attempt, retry: Attempt)

  /** A transcription result can only carry the text of one of the two attempts' generations. */
  predicate FromAttempts(r: Result<string>, a: Attempts) {
    r.Success? ==> r.value == AudioResultText(a.first.generation) || r.value == AudioResultText(a.retry.generation)
  }


}
