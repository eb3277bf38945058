# Screenshot OCR capture and system prompts

This project models two parts of a desktop companion application.

- **The screenshot-OCR controller** (`src/utils/screenshotOCR.js`). It holds:
  - a repeating capture schedule;
  - a lazily created recognition worker with a scratch directory;
  - one capture cycle: grab the primary screen, recognise its text, forward the text to the live assistant session and report progress on the status channel;
  - the four inter-process handlers: start, stop, single capture and cleanup.
- **The system-prompt builder** (`src/utils/prompts.js`). It looks up a conversation profile and joins the profile's sections with the user's own context and, optionally, the web-search instructions.

Modules:

- `JsText` (`text.dfy`) holds the JavaScript string operations the controller relies on:
  - `trim` with ECMAScript's whitespace set;
  - `length` counted in UTF-16 code units;
  - the decimal rendering of a timestamp.
- `ScreenshotOcr` (`screenshot_ocr.dfy`) has two layers:
  - The specification: the controller's module-level variables as a `State` value, and one pure function per operation (`Initialize`, `Cleanup`, `SimpleOcr`, `Cycle`, `Start`, `Stop`, `TimerFires`, `StartHandler`, `CaptureSingle`). Lemmas state what the code promises about them.
  - `Controller`: a class holding the same variables as fields. Its methods change them step by step, like the JavaScript.
    - Every state-changing method is proved to reach the state its function gives.
    - The schedule and handler methods (`StartScreenshotCapture`, `StopScreenshotCapture`, `OnTimer` and the four handlers) also keep the invariant `Consistent` (`Valid()`).
    - The inner steps (`InitializeOcr`, `CleanupOcr`, `PerformSimpleOcr`, `CaptureAndProcess`, `ReportVerdict`, `DeliverSingle`) are stated only as equal to their functions. The lemmas `OperationsKeepConsistent`, `CycleKeepsConsistent` and `CaptureSingleKeepsConsistent` show that those functions keep `Consistent`.
    - `ExtractTextFromImage` changes nothing, and its contract states its result directly.
- `PromptBuilder` (`prompt_builder.dfy`) holds `BuildSystemPrompt`. It collects the sections into a list, as the source does, and joins them. It is proved equal to the one-line concatenation `SystemPrompt`, and lemmas describe the shape of that prompt.
- `Prompts` (`prompts.dfy`) holds the profile table and `GetSystemPrompt`.

The outside world enters as oracle parameters. Each call receives the outcome the other party would have produced:

- the screen sources with their enhanced frames, or the error raised while getting them (`ScreenGrab`);
- the recognition result (`Recognition`);
- the session reference and how the send ended (`Session`);
- whether creating the directory and creating the worker succeed (`InitOracle`);
- whether terminating the worker succeeds (`terminateOk`);
- the clock reading that names the scratch file (`now`).

The runtime's intervals are a table of armed handles (`TimerTable`). A firing interval is the method `OnTimer`.

Behaviour of the code the model keeps:

- The code has no single-flight guard around recognition.
- Scratch files are removed only by cleanup, not after each use.
- Region capture does not exist in this code; only the primary screen is captured.
- Recognition before initialisation does not fail. `performSimpleOCR` turns the error into a fixed sentence. That sentence is longer than the threshold, so a repeating cycle forwards it to the session (`FallbackSentenceIsForwarded`).
- The threshold of ten counts UTF-16 code units of the trimmed text, not characters.
- A repeating cycle delivers the text wrapped as `I can see the following content on screen: "…"`.
- Initialisation is not idempotent. A second call creates a second worker. The start handler calls it only when there is no worker. The single-shot handler calls it only when the scratch path is unset (`StartHandlerInitGuard`, `SingleShotSkipsInitOnceTempDirSet`).

## Model

| member | source | states |
|---|---|---|
| JsText.LeadingSpace | src/utils/screenshotOCR.js:143 | the count is a prefix of whitespace followed by a non-whitespace character or the end |
| JsText.TrailingSpace | src/utils/screenshotOCR.js:143 | the count is a suffix of whitespace preceded by a non-whitespace character or the start |
| JsText.Trim | src/utils/screenshotOCR.js:143 | `trim` is empty exactly for all-whitespace input; otherwise it starts and ends with non-whitespace and is the input without its leading and trailing whitespace |
| JsText.TrimSplits | src/utils/screenshotOCR.js:143 | the input is its leading whitespace, its trim and its trailing whitespace, in order |
| JsText.TrimUnpadded | src/utils/screenshotOCR.js:181 | a string with no whitespace at either end is its own trim |
| JsText.TrimIdempotent | src/utils/screenshotOCR.js:181 | trimming already-trimmed text again changes nothing |
| JsText.Utf16Length | src/utils/screenshotOCR.js:181 | JavaScript's `length` lies between the number of code points and twice that |
| JsText.Decimal | src/utils/screenshotOCR.js:107 | the timestamp in a scratch name is a non-empty run of decimal digits that denotes the timestamp, with no leading zero, one digit exactly below ten |
| JsText.DecimalInjective | src/utils/screenshotOCR.js:107 | different timestamps give different renderings, so scratch names from different milliseconds differ |
| PromptBuilder.BuildSystemPrompt | src/utils/prompts.js:166-177 | joining the collected sections yields exactly the reference concatenation `SystemPrompt`, with or without the search section |
| PromptBuilder.ConcatAppend | src/utils/prompts.js:176 | joining two section lists is joining each and writing one after the other |
| PromptBuilder.PromptFraming | src/utils/prompts.js:167-174 | every prompt starts with the profile's intro and ends with its output instructions |
| PromptBuilder.PromptLength | src/utils/prompts.js:167-174 | the prompt's length is the parts' lengths plus 42 separator characters, plus 2 and the search text when search is on |
| PromptBuilder.SearchSectionInsertion | src/utils/prompts.js:169-172 | enabling search inserts a gap and the search text right after the format requirements and changes nothing else |
| PromptBuilder.CustomPromptPlacement | src/utils/prompts.js:174 | the user's context appears verbatim between the context header and footer, at an offset independent of the context |
| Prompts.GetSystemPrompt | src/utils/prompts.js:179-182 | the prompt is the one built from the table entry for the profile, or from the interview entry, with the given context and search flag |
| Prompts.UnknownProfileFallsBack | src/utils/prompts.js:180 | a profile name the table lacks is served the interview profile |
| ScreenshotOcr.CaptureScreen | src/utils/screenshotOCR.js:60-98 | a capture succeeds exactly when sources exist, with the first source's frame; no sources is the 'No screen sources found' error; other errors propagate |
| ScreenshotOcr.CycleVerdict | src/utils/screenshotOCR.js:181-198 | one verdict status; a send happens exactly when the trimmed length exceeds 10 and a live session takes it, with the text wrapped as screen content; otherwise 'No content detected', 'No active session', or 'Error: ' and the message of the failed send |
| ScreenshotOcr.SingleVerdict | src/utils/screenshotOCR.js:257-281 | a send happens exactly for a non-empty trim and a live session, behind 'Screenshot OCR Result: '; the statuses name which of the four outcomes occurred |
| ScreenshotOcr.CycleKeepsSchedule | src/utils/screenshotOCR.js:170-200 | a cycle, whatever fails in it, leaves schedule, worker and path alone and extends the status log and the sent texts, keeping what they held (its scratch file is described by `SimpleOcr`, not by this lemma) |
| ScreenshotOcr.StartKeepsConsistent | src/utils/screenshotOCR.js:150-168 | starting keeps the invariant: capturing exactly when the one armed interval is the recorded one |
| ScreenshotOcr.CycleKeepsConsistent | src/utils/screenshotOCR.js:165-200 | a cycle, run directly or by a firing interval, keeps the invariant |
| ScreenshotOcr.OperationsKeepConsistent | src/utils/screenshotOCR.js:202-228 | initialisation, cleanup, stop and the start handler keep the invariant |
| ScreenshotOcr.CaptureSingleKeepsConsistent | src/utils/screenshotOCR.js:240-292 | the single-shot handler keeps the invariant |
| ScreenshotOcr.CycleAppends | src/utils/screenshotOCR.js:170-200 | a failed capture appends 'Capturing screen...' and its error; a successful one appends both progress messages and the verdict, and the verdict's sends |
| ScreenshotOcr.CycleAppendsOnCapture | src/utils/screenshotOCR.js:175-195 | after a successful capture, the log and sends grow by the two progress messages plus the verdict on the recognised text |
| ScreenshotOcr.CycleStatusOrder | src/utils/screenshotOCR.js:172-198 | a cycle reports 'Capturing screen...', then 'Processing screenshot...' when the capture succeeded, then exactly one verdict; a failed capture reports its error second |
| ScreenshotOcr.CycleDeliveryThreshold | src/utils/screenshotOCR.js:181-198 | a cycle sends exactly when capture succeeds, the trimmed text exceeds ten UTF-16 units and a live session takes it; the last status names the case, a failed send being reported as 'Error: ' and its message |
| ScreenshotOcr.StartWhileCapturing | src/utils/screenshotOCR.js:151-154 | starting while capturing changes nothing |
| ScreenshotOcr.CycleCapturesOnce | src/utils/screenshotOCR.js:172 | a cycle reports 'Capturing screen...' exactly once |
| ScreenshotOcr.OnceAtHead | src/utils/screenshotOCR.js:172-198 | a cycle's status sequence holds the capturing message once |
| ScreenshotOcr.StartFromIdle | src/utils/screenshotOCR.js:156-167 | starting an idle controller runs one cycle and leaves exactly one interval armed, of `secs * 1000` ms, under a fresh handle |
| ScreenshotOcr.StartTwice | src/utils/screenshotOCR.js:150-168 | a second start without a stop in between changes nothing |
| ScreenshotOcr.StopProperties | src/utils/screenshotOCR.js:202-209 | stopping leaves the controller idle with no interval armed; stopping twice or stopping when idle changes nothing; logs are untouched |
| ScreenshotOcr.StoppedTimersNeverFire | src/utils/screenshotOCR.js:203-206 | a cleared interval never runs a cycle |
| ScreenshotOcr.CleanupProperties | src/utils/screenshotOCR.js:36-58 | a successful cleanup removes the worker and, when it existed, the directory and its path; a second cleanup changes nothing; the schedule keeps running |
| ScreenshotOcr.CleanupStopsAtFailedTermination | src/utils/screenshotOCR.js:39-57 | a failed worker termination ends the cleanup with nothing changed |
| ScreenshotOcr.FailedWorkerCreation | src/utils/screenshotOCR.js:17-33 | when worker creation fails, initialisation reports failure with the scratch path already set and no worker |
| ScreenshotOcr.NoTempDirUnpadded | src/utils/screenshotOCR.js:122 | the missing-directory notice is its own trim and longer than the threshold |
| ScreenshotOcr.OcrFailedUnpadded | src/utils/screenshotOCR.js:126 | the processing-failed notice is its own trim and longer than the threshold |
| ScreenshotOcr.FallbackUnpadded | src/utils/screenshotOCR.js:119 | the fallback sentence is its own trim and longer than the threshold |
| ScreenshotOcr.Unpadded | src/utils/screenshotOCR.js:119-126 | a string longer than the threshold that starts and ends with non-whitespace is its own trim |
| ScreenshotOcr.OcrTextIsTrimmed | src/utils/screenshotOCR.js:101-128 | `performSimpleOCR` returns the trimmed recognised text when it could read, one of the three fixed sentences otherwise, and always trimmed text |
| ScreenshotOcr.FallbackSentenceIsForwarded | src/utils/screenshotOCR.js:116-120 | with no worker or a failed recognition, a cycle with a live session forwards the fallback sentence as screen content |
| ScreenshotOcr.CycleAfterCleanup | src/utils/screenshotOCR.js:46-53 | cleanup does not stop the schedule; after a cleanup that removed the directory, the next firing forwards the missing-directory notice, whether or not a worker was running |
| ScreenshotOcr.StartHandlerInitGuard | src/utils/screenshotOCR.js:215-223 | without a worker the start handler initialises; on failure it replies 'Failed to initialize OCR' without starting, otherwise it starts and replies success |
| ScreenshotOcr.SingleShotSkipsInitOnceTempDirSet | src/utils/screenshotOCR.js:243-248 | once the scratch path is set, the single-shot handler never retries initialisation, so a missing worker stays missing and the fallback text is returned |
| ScreenshotOcr.SingleShotReply | src/utils/screenshotOCR.js:240-292 | the single-shot reply fails only on initialisation or capture errors; otherwise it carries the recognised text and the image |
| ScreenshotOcr.SingleShotDelivery | src/utils/screenshotOCR.js:243-281 | once initialised (on the first call too) and captured, the single-shot handler sends exactly for a non-empty trim and a live session, prefixed, and its last status names the outcome |
| ScreenshotOcr.ThresholdsDiffer | src/utils/screenshotOCR.js:181 | a five-letter text is forwarded by the single-shot handler and not by a repeating cycle |
| ScreenshotOcr.ScreenMessageRoundTrip | src/utils/screenshotOCR.js:187 | the text wrapped as screen content is recovered intact from the message |
| ScreenshotOcr.Controller.constructor | src/utils/screenshotOCR.js:7-10 | module load: nothing capturing, no worker, no path, the invariant holds |
| ScreenshotOcr.Controller.InitializeOcr | src/utils/screenshotOCR.js:12-34 | the new state and the success flag are those of `Initialize` |
| ScreenshotOcr.Controller.CleanupOcr | src/utils/screenshotOCR.js:36-58 | unlinking the listed files one by one empties the directory before it is removed, reaching the state of `Cleanup` |
| ScreenshotOcr.Controller.ExtractTextFromImage | src/utils/screenshotOCR.js:131-148 | it succeeds exactly with a worker and a recognition result, yielding the trimmed text; otherwise the 'OCR worker not initialized' error or the engine's error |
| ScreenshotOcr.Controller.PerformSimpleOcr | src/utils/screenshotOCR.js:101-128 | it never fails: state and text are those of `SimpleOcr` (see `OcrTextIsTrimmed`) |
| ScreenshotOcr.Controller.CaptureAndProcess | src/utils/screenshotOCR.js:170-200 | the new state is `Cycle` of the old one |
| ScreenshotOcr.Controller.ReportVerdict | src/utils/screenshotOCR.js:181-198 | the log and sends grow by `CycleVerdict` |
| ScreenshotOcr.Controller.StartScreenshotCapture | src/utils/screenshotOCR.js:150-168 | the new state is `Start` of the old one, and the invariant is kept |
| ScreenshotOcr.Controller.StopScreenshotCapture | src/utils/screenshotOCR.js:202-209 | the new state is `Stop` of the old one, and the invariant is kept |
| ScreenshotOcr.Controller.OnTimer | src/utils/screenshotOCR.js:165-167 | a firing runs `Cycle` only if its interval is still armed, and the invariant is kept |
| ScreenshotOcr.Controller.StartCaptureHandler | src/utils/screenshotOCR.js:212-228 | state and reply are those of `StartHandler`, and the invariant is kept |
| ScreenshotOcr.Controller.StopCaptureHandler | src/utils/screenshotOCR.js:230-238 | it stops and always replies success |
| ScreenshotOcr.Controller.CaptureSingleHandler | src/utils/screenshotOCR.js:240-292 | state and reply are those of `CaptureSingle`, and the invariant is kept |
| ScreenshotOcr.Controller.DeliverSingle | src/utils/screenshotOCR.js:257-281 | the log and sends grow by `SingleVerdict` |
| ScreenshotOcr.Controller.CleanupHandler | src/utils/screenshotOCR.js:294-302 | it cleans up and always replies success, since cleanup swallows its errors |

## Left out

- Concurrency: the immediate cycle of `startScreenshotCapture` is not awaited in the code. The model runs it to completion before the interval is armed. Overlapping cycles, and a cycle in flight while stop or cleanup runs, are not modelled.
- Timing: when and how often an interval fires is up to the caller of `OnTimer`. The runtime's clamping of odd periods is not modelled, nor is the period that a non-numeric `intervalSeconds` gives.
- The image pipeline is an oracle. Its stages are getting the sources, PNG conversion, the greyscale, contrast and normalise steps, and JPEG encoding. The model keeps only the frame's base64 text.
- The recognition engine's options and its progress logger, and all console logging, are left out.
- File contents are not modelled: the scratch directory is the set of its file names. A failed `unlinkSync` or `rmdirSync` during cleanup is not modelled either, so cleanup removes every listed file.
- Creating a second worker while one exists, which leaks the first, is modelled only as "a worker exists".
- Profile lookup through inherited object properties (`constructor`, `toString`) is not modelled: such a name falls back to the interview profile in the model.
- The profile table holds the texts of the source's eight profiles. The model proves nothing about their wording.
- The `event` arguments of the handlers and the renderer-side callers are not part of this model.
- JsText.Utf16Length: states bounds only, not the exact count of characters outside the Basic Multilingual Plane, which the definition itself carries.
