/** The screenshot-OCR capture controller: a repeating capture schedule, a
    lazily created recognition worker with its scratch directory, one capture
    cycle (grab the screen, recognise its text, forward the text to the
    assistant session) and the four inter-process handlers that drive them.

    Everything the controller asks of the outside world is an oracle input:
    each call receives the outcome the screen grabber, the image pipeline, the
    recognition engine, the session or the file system would have produced.
    The pure functions over `State` are the specification; the class
    `Controller` holds the same state in fields and its methods change it step
    by step, each proved to agree with its function. */
module ScreenshotOcr {
  import opened JsText

  datatype Option<T> = None | Some(value: T)

  datatype Result<T> = Ok(value: T) | Err(message: string)

  // Status messages sent on the 'update-status' channel.
  const CapturingScreen := "Capturing screen..."
  const ProcessingScreenshot := "Processing screenshot..."
  const Processing := "Processing..."
  const NoActiveSession := "No active session"
  const NoContentDetected := "No content detected"
  const SendingToGemini := "Sending to Gemini..."
  const SentToGemini := "Text sent to Gemini successfully"
  const FailedToSend := "Failed to send to Gemini"
  const NoTextFound := "No text found in screenshot"

  /** The status reported for an error raised inside a capture cycle. */
  function ErrorStatus(message: string): string {
    "Error: " + message
  }

  // The texts performSimpleOCR returns instead of raising an error. Each is
  // written as a concatenation rather than one literal: the verifier would
  // otherwise evaluate trim and length of every one of them wherever
  // recognised text is inspected.
  const RecognitionFallback := "No readable text detected in the " + "screenshot. Please try capturing text content."
  const NoTempDir := "OCR temp " + "directory not available"
  const OcrFailed := "OCR " + "processing failed"

  // Error messages raised or returned by the controller itself.
  const InitFailed := "Failed to initialize OCR"
  const WorkerMissing := "OCR worker not initialized"
  const NoScreenSources := "No screen sources found"

  /** A repeating cycle forwards text only when its trimmed length exceeds this. */
  const MinContentLength := 10

  // The wrappers around forwarded text.
  const ScreenPrefix := "I can see the following content on screen: \""
  const ScreenSuffix := "\""
  const SinglePrefix := "Screenshot OCR Result: "

  /** What a repeating cycle sends to the session for `text`. */
  function ScreenMessage(text: string): string {
    ScreenPrefix + text + ScreenSuffix
  }

  /** The scratch file name for a capture taken at `now` milliseconds. */
  function ScratchName(now: nat): string {
    "screenshot-" + Decimal(now) + ".jpg"
  }

  /** An enhanced JPEG capture; the model keeps only its base64 text. */
  datatype Frame = Frame(base64: string)

  /** What the screen-source enumeration and the image pipeline yield for one
      capture: the enhanced frame of every screen source in enumeration order,
      or the message of the error one of them raised. */
  datatype ScreenGrab = Enumerated(sources: seq<Frame>) | GrabFailed(message: string)

  /** What the recognition engine yields for one image. */
  datatype Recognition = Recognized(text: string) | RecognitionFailed(message: string)

  /** How a send to the session ends. */
  datatype Delivery = Delivered | DeliveryFailed(message: string)

  /** The session reference at the time of a send: empty, or a live session. */
  datatype Session = NoSession | Live(delivery: Delivery)

  /** How the two external steps of OCR initialisation end: creating the
      scratch directory, and creating the recognition worker. */
  datatype InitOracle = InitOracle(mkdirOk: bool, workerOk: bool)

  /** The external outcomes one capture meets, and the clock reading that
      names its scratch file. */
  datatype CycleInputs = CycleInputs(grab: ScreenGrab, recognition: Recognition, session: Session, now: nat)

  /** The object a handler returns: `{success: true}`, `{success: true, text,
      imageBase64}` or `{success: false, error}`. */
  datatype Reply = Done | DoneWithCapture(text: string, imageBase64: string) | Failed(error: string)

  /** The runtime's interval table: the armed intervals, each handle with its
      period in ms, and the handle the next `setInterval` returns. */
  datatype TimerTable = TimerTable(armed: map<nat, int>, nextHandle: nat)

  /** The controller's module-level state, the runtime's timers, the scratch
      directory on disk and what has been reported and sent so far. */
  datatype State = State(
    isCapturing: bool,
    screenshotInterval: Option<nat>,   // handle of the armed interval, if any
    timers: TimerTable,                // the runtime's intervals
    ocrWorker: bool,                   // a recognition worker exists
    tempDir: bool,                     // the scratch directory path is set
    scratchDir: Option<set<string>>,   // the scratch directory on disk and its files
    statusLog: seq<string>,
    sentTexts: seq<string>)

  /** The state at program start: nothing captured, no worker, no path set;
      the scratch directory may survive from an earlier run. */
  function Initial(onDisk: Option<set<string>>): State {
    State(false, None, TimerTable(map[], 0), false, false, onDisk, [], [])
  }

  /** What every operation keeps: the controller is capturing exactly when an
      interval is armed, the runtime holds no interval but that one, and a
      worker never exists without the scratch path. */
  predicate Consistent(s: State) {
    && (s.isCapturing <==> s.screenshotInterval.Some?)
    && (forall h :: h in s.timers.armed ==> s.screenshotInterval == Some(h))
    && (s.screenshotInterval.Some? ==> s.screenshotInterval.value in s.timers.armed)
    && (s.ocrWorker ==> s.tempDir)
  }

  function Report(s: State, message: string): State {
    s.(statusLog := s.statusLog + [message])
  }

  /** `captureScreen`: the frame of the first (primary) source. */
  function CaptureScreen(grab: ScreenGrab): (r: Result<Frame>)
    ensures r.Ok? <==> grab.Enumerated? && grab.sources != []
    ensures r.Ok? ==> r.value == grab.sources[0]
    ensures grab.Enumerated? && grab.sources == [] ==> r == Err(NoScreenSources)
  {
    match grab
    case GrabFailed(m) => Err(m)
    case Enumerated(sources) => if sources == [] then Err(NoScreenSources) else Ok(sources[0])
  }

  /** `initializeOCR`: sets the scratch path, creates the directory when it is
      absent, then creates the worker; the flag says whether both succeeded. */
  function Initialize(s: State, init: InitOracle): (State, bool) {
    var dir := if s.scratchDir.Some? then s.scratchDir else if init.mkdirOk then Some({}) else None;
    var ok := dir.Some? && init.workerOk;
    (s.(tempDir := true, scratchDir := dir, ocrWorker := s.ocrWorker || ok), ok)
  }

  /** `cleanupOCR`: terminates the worker, then deletes the scratch files and
      the directory. A failed termination ends the call with nothing changed. */
  function Cleanup(s: State, terminateOk: bool): State {
    if s.ocrWorker && !terminateOk then s
    else
      var s1 := s.(ocrWorker := false);
      if s1.tempDir && s1.scratchDir.Some? then s1.(tempDir := false, scratchDir := None) else s1
  }

  /** The text `performSimpleOCR` returns: the trimmed recognised text, or a
      fixed sentence for each way of failing. */
  function OcrText(tempDir: bool, dirExists: bool, worker: bool, recognition: Recognition): string {
    if !tempDir then NoTempDir
    else if !dirExists then OcrFailed
    else if worker && recognition.Recognized? then Trim(recognition.text)
    else RecognitionFallback
  }

  /** `performSimpleOCR`: writes a scratch file (when the directory exists)
      and returns `OcrText`. */
  function SimpleOcr(s: State, recognition: Recognition, now: nat): (State, string) {
    var written := s.tempDir && s.scratchDir.Some?;
    (s.(scratchDir := if written then Some(s.scratchDir.value + {ScratchName(now)}) else s.scratchDir),
     OcrText(s.tempDir, s.scratchDir.Some?, s.ocrWorker, recognition))
  }

  /** What the end of a capture adds: status messages, and texts sent to the
      session. */
  datatype Outcome = Outcome(statuses: seq<string>, sends: seq<string>)

  function Apply(s: State, o: Outcome): State {
    s.(statusLog := s.statusLog + o.statuses, sentTexts := s.sentTexts + o.sends)
  }

  /** How a repeating cycle ends once `text` is recognised: it sends the text
      wrapped as screen content when its trimmed length exceeds the threshold
      and a live session takes it, and reports one verdict. */
  function CycleVerdict(text: string, session: Session): (o: Outcome)
    ensures |o.statuses| == 1 && IsCycleVerdict(o.statuses[0])
    ensures o.sends != [] <==> Utf16Length(Trim(text)) > MinContentLength && session == Live(Delivered)
    ensures o.sends != [] ==> o.sends == [ScreenMessage(text)] && o.statuses == [Processing]
    ensures Utf16Length(Trim(text)) <= MinContentLength ==> o.statuses == [NoContentDetected]
    ensures Utf16Length(Trim(text)) > MinContentLength && session.NoSession? ==> o.statuses == [NoActiveSession]
    ensures Utf16Length(Trim(text)) > MinContentLength && session.Live? && session.delivery.DeliveryFailed?
            ==> o.statuses == [ErrorStatus(session.delivery.message)]
  {
    if Utf16Length(Trim(text)) > MinContentLength then
      match session
      case NoSession => Outcome([NoActiveSession], [])
      case Live(Delivered) => Outcome([Processing], [ScreenMessage(text)])
      case Live(DeliveryFailed(m)) => Outcome([ErrorStatus(m)], [])
    else
      Outcome([NoContentDetected], [])
  }

  /** `captureAndProcess`: one repeating cycle. Its status messages are
      'Capturing screen...', then either the capture error or 'Processing
      screenshot...' followed by the verdict on the recognised text. */
  function Cycle(s: State, io: CycleInputs): State {
    var s1 := Report(s, CapturingScreen);
    match CaptureScreen(io.grab)
    case Err(m) => Report(s1, ErrorStatus(m))
    case Ok(_) =>
      var r := SimpleOcr(Report(s1, ProcessingScreenshot), io.recognition, io.now);
      Apply(r.0, CycleVerdict(r.1, io.session))
  }

  /** `startScreenshotCapture`: unless already capturing, runs one cycle at
      once and arms one interval of `intervalSeconds * 1000` ms. */
  function Start(s: State, intervalSeconds: int, first: CycleInputs): State {
    if s.isCapturing then s
    else
      var s1 := Cycle(s.(isCapturing := true), first);
      var h := s1.timers.nextHandle;
      s1.(screenshotInterval := Some(h), timers := TimerTable(s1.timers.armed[h := intervalSeconds * 1000], h + 1))
  }

  /** `stopScreenshotCapture`: clears the armed interval, if any, and stops. */
  function Stop(s: State): State {
    var s1 := if s.screenshotInterval.Some? then
        s.(timers := s.timers.(armed := s.timers.armed - {s.screenshotInterval.value}), screenshotInterval := None)
      else s;
    s1.(isCapturing := false)
  }

  /** The runtime firing interval `h`: a cycle runs only if `h` is still armed. */
  function TimerFires(s: State, h: nat, io: CycleInputs): State {
    if h in s.timers.armed then Cycle(s, io) else s
  }

  /** The 'start-screenshot-capture' handler: initialises OCR when there is
      no worker, then starts capturing. */
  function StartHandler(s: State, intervalSeconds: int, init: InitOracle, first: CycleInputs): (State, Reply) {
    if s.ocrWorker then (Start(s, intervalSeconds, first), Done)
    else
      var (s1, ok) := Initialize(s, init);
      if ok then (Start(s1, intervalSeconds, first), Done) else (s1, Failed(InitFailed))
  }

  /** How the single-shot handler ends once `text` is recognised: with a
      non-empty trim it announces the send and reports how it went, sending
      the text behind 'Screenshot OCR Result: ' when a live session takes it;
      otherwise it reports that no text was found. */
  function SingleVerdict(text: string, session: Session): (o: Outcome)
    ensures o.sends != [] <==> Trim(text) != [] && session == Live(Delivered)
    ensures o.sends != [] ==> o.sends == [SinglePrefix + text]
    ensures Trim(text) == [] ==> o == Outcome([NoTextFound], [])
    ensures Trim(text) != [] ==>
      o.statuses == [SendingToGemini, match session
                                      case NoSession => NoActiveSession
                                      case Live(Delivered) => SentToGemini
                                      case Live(DeliveryFailed(_)) => FailedToSend]
  {
    if Trim(text) != [] then
      match session
      case NoSession => Outcome([SendingToGemini, NoActiveSession], [])
      case Live(Delivered) => Outcome([SendingToGemini, SentToGemini], [SinglePrefix + text])
      case Live(DeliveryFailed(_)) => Outcome([SendingToGemini, FailedToSend], [])
    else
      Outcome([NoTextFound], [])
  }

  /** The 'capture-single-screenshot' handler: initialises OCR when the
      scratch path is not set, captures, recognises and forwards any text
      whose trim is non-empty. */
  function CaptureSingle(s: State, init: InitOracle, io: CycleInputs): (State, Reply) {
    var i := if s.tempDir then (s, true) else Initialize(s, init);
    if !i.1 then (i.0, Failed(InitFailed))
    else
      var s2 := Report(i.0, CapturingScreen);
      match CaptureScreen(io.grab)
      case Err(m) => (s2, Failed(m))
      case Ok(frame) =>
        var r := SimpleOcr(Report(s2, ProcessingScreenshot), io.recognition, io.now);
        (Apply(r.0, SingleVerdict(r.1, io.session)), DoneWithCapture(r.1, frame.base64))
  }

  // ---------------------------------------------------------------------
  // Properties of the specification

  /** The fields a capture cycle never touches. */
  predicate SameSchedule(s: State, t: State) {
    && t.isCapturing == s.isCapturing
    && t.screenshotInterval == s.screenshotInterval
    && t.timers == s.timers
    && t.ocrWorker == s.ocrWorker
    && t.tempDir == s.tempDir
  }

  /** A cycle, whatever fails inside it, leaves the schedule, the worker and
      the scratch path alone and only appends to the status log and sends. */
  lemma CycleKeepsSchedule(s: State, io: CycleInputs)
    ensures var t := Cycle(s, io);
      && SameSchedule(s, t)
      && |s.statusLog| < |t.statusLog| && t.statusLog[..|s.statusLog|] == s.statusLog
      && |s.sentTexts| <= |t.sentTexts| && t.sentTexts[..|s.sentTexts|] == s.sentTexts
  {
  }

  /** Starting keeps `Consistent`: the one interval it arms is the one it
      records. */
  lemma StartKeepsConsistent(s: State, secs: int, io: CycleInputs)
    requires Consistent(s)
    ensures Consistent(Start(s, secs, io))
  {
    if !s.isCapturing {
      CycleKeepsSchedule(s.(isCapturing := true), io);
    }
  }

  /** A cycle, run directly or by a firing interval, keeps `Consistent`. */
  lemma CycleKeepsConsistent(s: State, h: nat, io: CycleInputs)
    requires Consistent(s)
    ensures Consistent(Cycle(s, io))
    ensures Consistent(TimerFires(s, h, io))
  {
    CycleKeepsSchedule(s, io);
  }

  /** Every other operation keeps `Consistent` too. */
  lemma OperationsKeepConsistent(s: State, init: InitOracle, terminateOk: bool, secs: int, io: CycleInputs)
    requires Consistent(s)
    ensures Consistent(Initialize(s, init).0)
    ensures Consistent(Cleanup(s, terminateOk))
    ensures Consistent(Stop(s))
    ensures Consistent(StartHandler(s, secs, init, io).0)
  {
    StartKeepsConsistent(s, secs, io);
    StartKeepsConsistent(Initialize(s, init).0, secs, io);
  }

  /** The single-shot handler keeps `Consistent`: it touches nothing of the
      schedule, and initialisation keeps the worker with its path. */
  lemma CaptureSingleKeepsConsistent(s: State, init: InitOracle, io: CycleInputs)
    requires Consistent(s)
    ensures Consistent(CaptureSingle(s, init, io).0)
  {
    var i := if s.tempDir then (s, true) else Initialize(s, init);
    assert Consistent(i.0);
    assert SameSchedule(i.0, CaptureSingle(s, init, io).0);
  }

  /** A status reporting the end of a repeating cycle. */
  predicate IsCycleVerdict(m: string) {
    m == Processing || m == NoActiveSession || m == NoContentDetected
    || (|m| >= 7 && m[..7] == "Error: ")
  }

  /** A cycle appends to the status log and to the sent texts exactly what
      its capture and its verdict on the recognised text call for. */
  lemma CycleAppends(s: State, io: CycleInputs)
    ensures var t := Cycle(s, io);
      var v := CycleVerdict(OcrText(s.tempDir, s.scratchDir.Some?, s.ocrWorker, io.recognition), io.session);
      match CaptureScreen(io.grab)
      case Err(m) =>
        t.statusLog == s.statusLog + [CapturingScreen, ErrorStatus(m)] && t.sentTexts == s.sentTexts
      case Ok(_) =>
        t.statusLog == s.statusLog + ([CapturingScreen, ProcessingScreenshot] + v.statuses)
        && t.sentTexts == s.sentTexts + v.sends
  {
    if CaptureScreen(io.grab).Ok? {
      CycleAppendsOnCapture(s, io);
    } else {
      var m := CaptureScreen(io.grab).message;
      assert s.statusLog + [CapturingScreen] + [ErrorStatus(m)] == s.statusLog + [CapturingScreen, ErrorStatus(m)];
    }
  }

  lemma CycleAppendsOnCapture(s: State, io: CycleInputs)
    requires CaptureScreen(io.grab).Ok?
    ensures var v := CycleVerdict(OcrText(s.tempDir, s.scratchDir.Some?, s.ocrWorker, io.recognition), io.session);
      && Cycle(s, io).statusLog == s.statusLog + ([CapturingScreen, ProcessingScreenshot] + v.statuses)
      && Cycle(s, io).sentTexts == s.sentTexts + v.sends
  {
    var s1 := Report(Report(s, CapturingScreen), ProcessingScreenshot);
    var v := CycleVerdict(OcrText(s.tempDir, s.scratchDir.Some?, s.ocrWorker, io.recognition), io.session);
    assert s1.statusLog + v.statuses == s.statusLog + ([CapturingScreen, ProcessingScreenshot] + v.statuses);
  }


  /** A cycle reports 'Capturing screen...', then 'Processing screenshot...'
      when the capture succeeded, then exactly one verdict; a failed capture
      reports its error right after the first message. */
  lemma CycleStatusOrder(s: State, io: CycleInputs)
    ensures var t := Cycle(s, io);
      var added := t.statusLog[|s.statusLog|..];
      && |s.statusLog| <= |t.statusLog| && t.statusLog[..|s.statusLog|] == s.statusLog
      && 2 <= |added| <= 3
      && added[0] == CapturingScreen
      && IsCycleVerdict(added[|added| - 1])
      && (CaptureScreen(io.grab).Err? ==> added == [CapturingScreen, ErrorStatus(CaptureScreen(io.grab).message)])
      && (CaptureScreen(io.grab).Ok? ==> |added| == 3 && added[1] == ProcessingScreenshot)
  {
    CycleAppends(s, io);
    var log := Cycle(s, io).statusLog;
    match CaptureScreen(io.grab)
    case Err(m) =>
      assert log[|s.statusLog|..] == [CapturingScreen, ErrorStatus(m)];
    case Ok(_) =>
      var v := CycleVerdict(OcrText(s.tempDir, s.scratchDir.Some?, s.ocrWorker, io.recognition), io.session);
      assert log[|s.statusLog|..] == [CapturingScreen, ProcessingScreenshot] + v.statuses;
  }

  /** A repeating cycle sends exactly when the capture succeeded, the
      recognised text's trimmed length exceeds ten UTF-16 code units and a
      live session takes the send; it sends the text wrapped as screen
      content. With no session, or too little text, it says so instead. */
  lemma CycleDeliveryThreshold(s: State, io: CycleInputs)
    ensures var t := Cycle(s, io);
      var text := OcrText(s.tempDir, s.scratchDir.Some?, s.ocrWorker, io.recognition);
      var captured := CaptureScreen(io.grab).Ok?;
      var enough := Utf16Length(Trim(text)) > MinContentLength;
      && (t.sentTexts != s.sentTexts <==> captured && enough && io.session == Live(Delivered))
      && (t.sentTexts != s.sentTexts ==> t.sentTexts == s.sentTexts + [ScreenMessage(text)])
      && (captured && !enough ==> t.statusLog[|t.statusLog| - 1] == NoContentDetected)
      && (captured && enough && io.session.NoSession? ==> t.statusLog[|t.statusLog| - 1] == NoActiveSession)
      && (captured && enough && io.session == Live(Delivered) ==> t.statusLog[|t.statusLog| - 1] == Processing)
      && (captured && enough && io.session.Live? && io.session.delivery.DeliveryFailed?
          ==> t.statusLog[|t.statusLog| - 1] == ErrorStatus(io.session.delivery.message))
  {
    CycleAppends(s, io);
    var t := Cycle(s, io);
    match CaptureScreen(io.grab)
    case Err(m) =>
      assert t.sentTexts == s.sentTexts;
    case Ok(_) =>
      var v := CycleVerdict(OcrText(s.tempDir, s.scratchDir.Some?, s.ocrWorker, io.recognition), io.session);
      assert t.statusLog[|t.statusLog| - 1] == v.statuses[0];
      if v.sends == [] {
        assert t.sentTexts == s.sentTexts;
      } else {
        assert |t.sentTexts| > |s.sentTexts|;
      }
  }

  /** Starting while capturing changes nothing. */
  lemma StartWhileCapturing(s: State, secs: int, io: CycleInputs)
    requires s.isCapturing
    ensures Start(s, secs, io) == s
  {
  }

  /** A cycle reports 'Capturing screen...' exactly once. */
  lemma CycleCapturesOnce(s: State, io: CycleInputs)
    ensures var t := Cycle(s, io);
      |s.statusLog| <= |t.statusLog| && multiset(t.statusLog[|s.statusLog|..])[CapturingScreen] == 1
  {
    CycleStatusOrder(s, io);
    OnceAtHead(Cycle(s, io).statusLog[|s.statusLog|..]);
  }

  lemma OnceAtHead(added: seq<string>)
    requires 2 <= |added| <= 3 && added[0] == CapturingScreen
    requires |added| == 3 ==> added[1] == ProcessingScreenshot
    requires IsCycleVerdict(added[|added| - 1])
    ensures multiset(added)[CapturingScreen] == 1
  {
    var last := added[|added| - 1];
    assert last != CapturingScreen by {
      if |last| >= 7 && last[..7] == "Error: " {
        assert last[0] == "Error: "[0] == 'E' != CapturingScreen[0];
      }
    }
    if |added| == 2 {
      assert added == [CapturingScreen] + [last];
    } else {
      assert added == [CapturingScreen] + [ProcessingScreenshot] + [last];
    }
  }

  /** Starting an idle controller runs exactly one cycle (one 'Capturing
      screen...' is reported) and leaves exactly one interval armed, of
      `secs * 1000` ms, under a handle the runtime had not given before. */
  lemma StartFromIdle(s: State, secs: int, io: CycleInputs)
    requires Consistent(s) && !s.isCapturing
    ensures var t := Start(s, secs, io);
      && t.isCapturing
      && t.screenshotInterval == Some(s.timers.nextHandle)
      && t.timers == TimerTable(map[s.timers.nextHandle := secs * 1000], s.timers.nextHandle + 1)
      && |s.statusLog| <= |t.statusLog|
      && multiset(t.statusLog[|s.statusLog|..])[CapturingScreen] == 1
  {
    assert s.timers.armed == map[];
    var s1 := s.(isCapturing := true);
    CycleKeepsSchedule(s1, io);
    CycleCapturesOnce(s1, io);
  }


  /** A second start, without a stop in between, changes nothing. */
  lemma StartTwice(s: State, secs1: int, secs2: int, in1: CycleInputs, in2: CycleInputs)
    ensures Start(Start(s, secs1, in1), secs2, in2) == Start(s, secs1, in1)
  {
    if !s.isCapturing {
      CycleKeepsSchedule(s.(isCapturing := true), in1);
    }
  }

  /** Stopping leaves the controller idle with no interval armed; stopping an
      idle controller, or stopping twice, changes nothing. */
  lemma StopProperties(s: State)
    requires Consistent(s)
    ensures var t := Stop(s);
      && !t.isCapturing && t.screenshotInterval == None && t.timers.armed == map[]
      && Stop(t) == t
      && (!s.isCapturing ==> t == s)
      && t.statusLog == s.statusLog && t.sentTexts == s.sentTexts
  {
    var t := Stop(s);
    assert forall h :: h !in t.timers.armed;
    assert t.timers.armed == map[];
    if !s.isCapturing {
      assert s.timers.armed == map[];
    }
  }

  /** A cleared interval never fires a cycle. */
  lemma StoppedTimersNeverFire(s: State, h: nat, io: CycleInputs)
    requires Consistent(s)
    ensures TimerFires(Stop(s), h, io) == Stop(s)
  {
    StopProperties(s);
  }

  /** A cleanup whose worker termination succeeds leaves no worker and, when
      the scratch directory existed, no directory and no path; a second
      cleanup then changes nothing. Neither touches the schedule or the logs. */
  lemma CleanupProperties(s: State, again: bool)
    ensures var t := Cleanup(s, true);
      && !t.ocrWorker
      && (s.tempDir && s.scratchDir.Some? ==> !t.tempDir && t.scratchDir == None)
      && Cleanup(t, again) == t
      && t.isCapturing == s.isCapturing && t.timers == s.timers
      && t.statusLog == s.statusLog && t.sentTexts == s.sentTexts
  {
  }

  /** A worker whose termination fails leaves the cleanup without effect. */
  lemma CleanupStopsAtFailedTermination(s: State)
    requires s.ocrWorker
    ensures Cleanup(s, false) == s
  {
  }

  /** Initialisation sets the scratch path before it creates the worker: when
      worker creation fails the path stays set and no worker exists. */
  lemma FailedWorkerCreation(s: State, init: InitOracle)
    requires !s.ocrWorker && !init.workerOk
    ensures var (t, ok) := Initialize(s, init);
      !ok && t.tempDir && !t.ocrWorker
  {
  }

  /** `performSimpleOCR` returns trimmed text whatever happens, so the second
      trim the callers apply changes nothing. */
  // The fixed sentences are their own trim, and each is longer than the
  // repeating cycle's threshold.

  lemma NoTempDirUnpadded()
    ensures Trim(NoTempDir) == NoTempDir && Utf16Length(NoTempDir) > MinContentLength
  {
    Unpadded(NoTempDir, 'O', 'e');
  }

  lemma OcrFailedUnpadded()
    ensures Trim(OcrFailed) == OcrFailed && Utf16Length(OcrFailed) > MinContentLength
  {
    Unpadded(OcrFailed, 'O', 'd');
  }

  lemma FallbackUnpadded()
    ensures Trim(RecognitionFallback) == RecognitionFallback && Utf16Length(RecognitionFallback) > MinContentLength
  {
    Unpadded(RecognitionFallback, 'N', '.');
  }

  lemma Unpadded(m: string, first: char, last: char)
    requires |m| > MinContentLength && m[0] == first && m[|m| - 1] == last
    requires !IsJsWhitespace(first) && !IsJsWhitespace(last)
    ensures Trim(m) == m && Utf16Length(m) > MinContentLength
  {
    TrimUnpadded(m);
  }


  lemma OcrTextIsTrimmed(tempDir: bool, dirExists: bool, worker: bool, recognition: Recognition)
    ensures var text := OcrText(tempDir, dirExists, worker, recognition);
      var read := tempDir && dirExists && worker && recognition.Recognized?;
      && Trim(text) == text
      && (read ==> text == Trim(recognition.text))
      && (!read ==> text in {NoTempDir, OcrFailed, RecognitionFallback})
  {
    if !tempDir {
      NoTempDirUnpadded();
    } else if !dirExists {
      OcrFailedUnpadded();
    } else if worker && recognition.Recognized? {
      TrimIdempotent(recognition.text);
    } else {
      FallbackUnpadded();
    }
  }

  /** The fixed sentences that stand in for recognised text are longer than
      the threshold: with a live session a repeating cycle forwards them as if
      they had been read off the screen. */
  lemma FallbackSentenceIsForwarded(s: State, io: CycleInputs)
    requires s.tempDir && s.scratchDir.Some?
    requires !s.ocrWorker || io.recognition.RecognitionFailed?
    requires CaptureScreen(io.grab).Ok? && io.session == Live(Delivered)
    ensures Cycle(s, io).sentTexts == s.sentTexts + [ScreenMessage(RecognitionFallback)]
  {
    FallbackUnpadded();
  }

  /** Cleanup does not stop the schedule: an interval that fires after a
      cleanup that removed the scratch directory forwards the notice that the
      directory is missing. */
  lemma CycleAfterCleanup(s: State, io: CycleInputs)
    requires Consistent(s) && s.isCapturing
    requires s.tempDir && s.scratchDir.Some?
    requires CaptureScreen(io.grab).Ok? && io.session == Live(Delivered)
    ensures var t := Cleanup(s, true);
      && t.isCapturing
      && TimerFires(t, t.screenshotInterval.value, io).sentTexts == s.sentTexts + [ScreenMessage(NoTempDir)]
  {
    NoTempDirUnpadded();
  }

  /** Starting re-initialises whenever there is no worker, and fails, without
      starting, when that initialisation fails. */
  lemma StartHandlerInitGuard(s: State, secs: int, init: InitOracle, io: CycleInputs)
    requires !s.ocrWorker
    ensures var (t, reply) := StartHandler(s, secs, init, io);
      var (s1, ok) := Initialize(s, init);
      && (ok ==> reply == Done && t.ocrWorker && t == Start(s1, secs, io))
      && (!ok ==> reply == Failed(InitFailed) && t == s1 && t.isCapturing == s.isCapturing)
  {
  }

  /** The single-shot handler initialises only when the scratch path is unset.
      After a worker creation failed, the path is set, so the handler does not
      retry: the worker stays missing and the text is the fixed fallback
      sentence (or, if the directory could not be made, the failure notice). */
  lemma SingleShotSkipsInitOnceTempDirSet(s: State, init: InitOracle, io: CycleInputs)
    requires s.tempDir && !s.ocrWorker && CaptureScreen(io.grab).Ok?
    ensures var (t, reply) := CaptureSingle(s, init, io);
      && !t.ocrWorker
      && reply.DoneWithCapture?
      && reply.text == (if s.scratchDir.Some? then RecognitionFallback else OcrFailed)
  {
  }

  /** The single-shot reply is a failure only when initialisation or the
      capture failed; otherwise it carries the text and the image, whether the
      text was sent, found no session, or failed to send. */
  lemma SingleShotReply(s: State, init: InitOracle, io: CycleInputs)
    ensures var (t, reply) := CaptureSingle(s, init, io);
      var (s1, ok) := if s.tempDir then (s, true) else Initialize(s, init);
      var captured := CaptureScreen(io.grab);
      && (!ok ==> reply == Failed(InitFailed))
      && (ok && captured.Err? ==> reply == Failed(captured.message))
      && (ok && captured.Ok? ==> reply == DoneWithCapture(
            OcrText(s1.tempDir, s1.scratchDir.Some?, s1.ocrWorker, io.recognition), captured.value.base64))
  {
  }

  /** The single-shot handler, once initialised (when it had to be) and the
      capture succeeded, sends exactly when the text's trim is non-empty and
      a live session takes the send, prefixed with 'Screenshot OCR Result: ';
      its last status says which of the four outcomes occurred. */
  lemma SingleShotDelivery(s: State, init: InitOracle, io: CycleInputs)
    requires CaptureScreen(io.grab).Ok?
    ensures var (t, reply) := CaptureSingle(s, init, io);
      var (s1, ok) := if s.tempDir then (s, true) else Initialize(s, init);
      var text := OcrText(s1.tempDir, s1.scratchDir.Some?, s1.ocrWorker, io.recognition);
      ok ==>
      var last := t.statusLog[|t.statusLog| - 1];
      && (t.sentTexts != s.sentTexts <==> Trim(text) != [] && io.session == Live(Delivered))
      && (t.sentTexts != s.sentTexts ==> t.sentTexts == s.sentTexts + [SinglePrefix + text])
      && (Trim(text) == [] ==> last == NoTextFound)
      && (Trim(text) != [] ==> match io.session
                               case NoSession => last == NoActiveSession
                               case Live(Delivered) => last == SentToGemini
                               case Live(DeliveryFailed(_)) => last == FailedToSend)
  {
  }

  /** The two paths use different thresholds: a five-letter text is forwarded
      by the single-shot handler and not by a repeating cycle. */
  lemma ThresholdsDiffer(s: State, init: InitOracle, frame: Frame, now: nat)
    requires s.tempDir && s.ocrWorker && s.scratchDir.Some?
    ensures var io := CycleInputs(Enumerated([frame]), Recognized("Hello"), Live(Delivered), now);
      && Cycle(s, io).sentTexts == s.sentTexts
      && CaptureSingle(s, init, io).0.sentTexts == s.sentTexts + [SinglePrefix + "Hello"]
  {
    TrimUnpadded("Hello");
  }

  /** The text a session receives from a repeating cycle, recovered from the
      message: the inverse of `ScreenMessage`. */
  function ScreenContent(message: string): Option<string> {
    if |ScreenPrefix| + |ScreenSuffix| <= |message|
       && message[..|ScreenPrefix|] == ScreenPrefix
       && message[|message| - |ScreenSuffix|..] == ScreenSuffix
    then Some(message[|ScreenPrefix|..|message| - |ScreenSuffix|])
    else None
  }

  /** The wrapped text reaches the session intact. */
  lemma ScreenMessageRoundTrip(text: string)
    ensures ScreenContent(ScreenMessage(text)) == Some(text)
  {
    var m := ScreenMessage(text);
    assert m[..|ScreenPrefix|] == ScreenPrefix;
    assert m[|m| - |ScreenSuffix|..] == ScreenSuffix;
    assert m[|ScreenPrefix|..|m| - |ScreenSuffix|] == text;
  }

  // ---------------------------------------------------------------------
  // The controller, with the module-level variables as fields

  class Controller {
    var isCapturing: bool
    var screenshotInterval: Option<nat>
    var timers: TimerTable
    var ocrWorker: bool
    var tempDir: bool
    var scratchDir: Option<set<string>>
    var statusLog: seq<string>
    var sentTexts: seq<string>

    ghost function Model(): State
      reads this
    {
      State(isCapturing, screenshotInterval, timers, ocrWorker, tempDir, scratchDir, statusLog, sentTexts)
    }

    ghost predicate Valid()
      reads this
    {
      Consistent(Model())
    }

    /** Module load: every variable null or false. */
    constructor (onDisk: Option<set<string>>)
      ensures Model() == Initial(onDisk) && Valid()
    {
      isCapturing, screenshotInterval, timers := false, None, TimerTable(map[], 0);
      ocrWorker, tempDir, scratchDir := false, false, onDisk;
      statusLog, sentTexts := [], [];
    }

    /** `initializeOCR` */
    method InitializeOcr(init: InitOracle) returns (ok: bool)
      modifies this
      ensures (Model(), ok) == Initialize(old(Model()), init)
    {
      tempDir := true;
      if scratchDir.None? {
        if !init.mkdirOk {
          return false;  // mkdirSync raised
        }
        scratchDir := Some({});
      }
      if !init.workerOk {
        return false;  // worker creation raised
      }
      ocrWorker := true;
      return true;
    }

    /** `cleanupOCR`: terminates the worker, unlinks every file of the
        scratch directory, then removes the directory. */
    method CleanupOcr(terminateOk: bool)
      modifies this
      ensures Model() == Cleanup(old(Model()), terminateOk)
    {
      if ocrWorker {
        if !terminateOk {
          return;  // terminate() raised; the error is swallowed
        }
        ocrWorker := false;
      }
      if tempDir && scratchDir.Some? {
        var remaining := scratchDir.value;  // the directory listing
        ghost var before := Model();
        while remaining != {}
          invariant Model() == before.(scratchDir := Some(remaining))
          decreases remaining
        {
          var file :| file in remaining;
          remaining := remaining - {file};
          scratchDir := Some(remaining);  // unlinkSync(file)
        }
        assert scratchDir == Some({});
        scratchDir := None;  // rmdirSync of the now empty directory
        tempDir := false;
      }
    }

    /** `extractTextFromImage`: fails without a worker; otherwise the
        recognised text, trimmed, or the recognition error. */
    method ExtractTextFromImage(recognition: Recognition) returns (r: Result<string>)
      ensures r.Ok? <==> ocrWorker && recognition.Recognized?
      ensures r.Ok? ==> r.value == Trim(recognition.text)
      ensures !ocrWorker ==> r == Err(WorkerMissing)
      ensures ocrWorker && recognition.RecognitionFailed? ==> r == Err(recognition.message)
    {
      if !ocrWorker {
        return Err(WorkerMissing);
      }
      match recognition {
        case Recognized(text) => r := Ok(Trim(text));
        case RecognitionFailed(m) => r := Err(m);
      }
    }

    /** `performSimpleOCR`: never raises. */
    method PerformSimpleOcr(recognition: Recognition, now: nat) returns (text: string)
      modifies this
      ensures (Model(), text) == SimpleOcr(old(Model()), recognition, now)
    {
      if !tempDir {
        return NoTempDir;
      }
      if scratchDir.None? {
        return OcrFailed;  // writeFileSync raised: the directory is missing
      }
      scratchDir := Some(scratchDir.value + {ScratchName(now)});
      var extracted := ExtractTextFromImage(recognition);
      match extracted {
        case Ok(t) => text := t;
        case Err(_) => text := RecognitionFallback;
      }
    }

    /** `captureAndProcess`: every error is caught and reported. */
    method CaptureAndProcess(io: CycleInputs)
      modifies this
      ensures Model() == Cycle(old(Model()), io)
    {
      statusLog := statusLog + [CapturingScreen];
      var captured := CaptureScreen(io.grab);
      if captured.Err? {
        statusLog := statusLog + [ErrorStatus(captured.message)];
        return;
      }
      statusLog := statusLog + [ProcessingScreenshot];
      var text := PerformSimpleOcr(io.recognition, io.now);
      ReportVerdict(text, io.session);
    }

    /** The end of a repeating cycle: the verdict on the recognised text. */
    method ReportVerdict(text: string, session: Session)
      modifies this
      ensures Model() == Apply(old(Model()), CycleVerdict(text, session))
    {
      if Utf16Length(Trim(text)) > MinContentLength {
        match session {
          case NoSession =>
            statusLog := statusLog + [NoActiveSession];
          case Live(Delivered) =>
            sentTexts := sentTexts + [ScreenMessage(text)];
            statusLog := statusLog + [Processing];
          case Live(DeliveryFailed(m)) =>
            statusLog := statusLog + [ErrorStatus(m)];
        }
      } else {
        statusLog := statusLog + [NoContentDetected];
      }
    }

    /** `startScreenshotCapture`; `first` is what the immediate cycle meets. */
    method StartScreenshotCapture(intervalSeconds: int, first: CycleInputs)
      requires Valid()
      modifies this
      ensures Model() == Start(old(Model()), intervalSeconds, first) && Valid()
    {
      StartKeepsConsistent(Model(), intervalSeconds, first);
      if isCapturing {
        return;
      }
      isCapturing := true;
      var intervalMs := intervalSeconds * 1000;
      ghost var s1 := Model();
      CaptureAndProcess(first);
      ghost var s2 := Model();
      assert s2 == Cycle(s1, first);
      screenshotInterval := Some(timers.nextHandle);  // setInterval
      timers := TimerTable(timers.armed[timers.nextHandle := intervalMs], timers.nextHandle + 1);
    }

    /** `stopScreenshotCapture` */
    method StopScreenshotCapture()
      requires Valid()
      modifies this
      ensures Model() == Stop(old(Model())) && Valid()
    {
      if screenshotInterval.Some? {
        timers := timers.(armed := timers.armed - {screenshotInterval.value});  // clearInterval
        screenshotInterval := None;
      }
      isCapturing := false;
    }

    /** The runtime firing interval `h`. */
    method OnTimer(h: nat, io: CycleInputs)
      requires Valid()
      modifies this
      ensures Model() == TimerFires(old(Model()), h, io) && Valid()
    {
      CycleKeepsConsistent(Model(), h, io);
      if h in timers.armed {
        CaptureAndProcess(io);
      }
    }

    /** The 'start-screenshot-capture' handler. */
    method StartCaptureHandler(intervalSeconds: int, init: InitOracle, first: CycleInputs) returns (reply: Reply)
      requires Valid()
      modifies this
      ensures (Model(), reply) == StartHandler(old(Model()), intervalSeconds, init, first) && Valid()
    {
      OperationsKeepConsistent(Model(), init, false, intervalSeconds, first);
      if !ocrWorker {
        var initialized := InitializeOcr(init);
        if !initialized {
          return Failed(InitFailed);
        }
      }
      StartScreenshotCapture(intervalSeconds, first);
      return Done;
    }

    /** The 'stop-screenshot-capture' handler. */
    method StopCaptureHandler() returns (reply: Reply)
      requires Valid()
      modifies this
      ensures Model() == Stop(old(Model())) && reply == Done && Valid()
    {
      StopScreenshotCapture();
      return Done;
    }

    /** The 'capture-single-screenshot' handler. */
    method CaptureSingleHandler(init: InitOracle, io: CycleInputs) returns (reply: Reply)
      requires Valid()
      modifies this
      ensures (Model(), reply) == CaptureSingle(old(Model()), init, io) && Valid()
    {
      CaptureSingleKeepsConsistent(Model(), init, io);
      if !tempDir {
        var initialized := InitializeOcr(init);
        if !initialized {
          return Failed(InitFailed);
        }
      }
      statusLog := statusLog + [CapturingScreen];
      var captured := CaptureScreen(io.grab);
      if captured.Err? {
        return Failed(captured.message);
      }
      statusLog := statusLog + [ProcessingScreenshot];
      var text := PerformSimpleOcr(io.recognition, io.now);
      DeliverSingle(text, io.session);
      return DoneWithCapture(text, captured.value.base64);
    }

    /** The end of the single-shot handler: forwarding a non-empty text. */
    method DeliverSingle(text: string, session: Session)
      modifies this
      ensures Model() == Apply(old(Model()), SingleVerdict(text, session))
    {
      if Trim(text) != [] {
        statusLog := statusLog + [SendingToGemini];
        match session {
          case NoSession =>
            statusLog := statusLog + [NoActiveSession];
          case Live(Delivered) =>
            sentTexts := sentTexts + [SinglePrefix + text];
            statusLog := statusLog + [SentToGemini];
          case Live(DeliveryFailed(_)) =>
            statusLog := statusLog + [FailedToSend];
        }
      } else {
        statusLog := statusLog + [NoTextFound];
      }
    }

    /** The 'cleanup-ocr' handler: cleanup swallows its errors, so the reply
        is always a success. */
    method CleanupHandler(terminateOk: bool) returns (reply: Reply)
      requires Valid()
      modifies this
      ensures Model() == Cleanup(old(Model()), terminateOk) && reply == Done && Valid()
    {
      OperationsKeepConsistent(Model(), InitOracle(false, false), terminateOk, 0, CycleInputs(GrabFailed(""), RecognitionFailed(""), NoSession, 0));
      CleanupOcr(terminateOk);
      return Done;
    }
  }
}
