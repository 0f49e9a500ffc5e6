# DeepShield session and presentation rules, in Dafny

DeepShield is a single-page "deepfake detector". Its interface accepts a video, audio or
image file, fakes an upload progress bar, waits a random delay, and then produces a
random verdict (Real or Fake) with a confidence score. Each result is shown and added to an
in-memory history, which a dashboard summarises. There is no detection engine. This
project models the logic behind that interface and proves what it guarantees:

- `rounding.dfy` (module `Rounding`): the range of `Math.random()` and `Math.round`. Rounding is
  modelled over exact reals as `floor(x + 1/2)`. An integer form `(2a+b) div (2b)` is proved
  equal to rounding `a/b`.
- `display.dfy` (module `Display`): the icons and colour families the screens choose from, as enums.
- `detection.dfy` (module `Detection`): the `DetectionResult` record and how the page's timer
  callback builds one from the file, the timer delay and a random draw.
- `session.dfy` (module `Session`): the page's state (view, current result, history,
  processing flag) as class `Controller`. The upload handler is split into its synchronous
  start and its timer callback. The navigation callbacks and the render guard are modelled too.
- `upload.dfy` (module `Upload`): the MIME-type check, the drag highlight, and class
  `Uploader`. Its `HandleFile` runs the 100 ms interval as an explicit loop of ticks.
- `dashboard.dfy` (module `Dashboard`): counts, the rounded mean confidence, the rounded
  percentages, verdict icon and badge, and the history list.
- `results.dfy` (module `Results`): verdict icon and colours, confidence tiers, the confidence
  bar, the manipulation warning and the processing timeline.

Random draws (`Math.random()`) are parameters `u` with `0 <= u < 1`. A scheduled timer is a
`Timer` value that `StartUpload` returns and `CompleteUpload` consumes. The clock readings
behind a result's `id` and `timestamp` are parameters as well.

On three points the code does something other than one might expect, and the model follows the code:

- The verdict is decided on the unrounded draw (`raw > 50`), while the stored confidence is
  `round(raw)`. So "Real iff stored confidence > 50" is false: a stored 50 can carry either
  verdict (`StoredFiftyIsAmbiguous`). What does hold: Fake implies confidence ≤ 50, and Real
  implies confidence ≥ 50.
- The stored processing time is the rounded delay. It lies in [2000, 5000] with 5000
  reachable (`ProcessingTimeReaches5000`), not in [2000, 5000).
- The page derives `fileType` from the bare prefixes "video" and "audio". The upload section
  checks "video/", "audio/" and "image/". The two agree on every file the upload section
  accepts (`IconAgreesWithFileType`), but not on rejected types such as "videogame".

One more consequence, proved: the dashboard's real and fake percentages add up to 100 or
101, never 99. With 3 real and 5 fake entries it shows 38% and 63%.

## Model

| member | source | states |
|---|---|---|
| Rounding.Round | src/pages/Index.tsx:42 | `Math.round(x)` is the integer r with x − ½ < r ≤ x + ½ (halves round up) |
| Rounding.RoundDiv | src/components/Dashboard.tsx:15 | the integer formula (2a+b) div (2b) equals `Math.round(a / b)` over exact reals, for every positive b |
| Rounding.RoundDivWithin | src/components/Dashboard.tsx:14-16 | if lo·n ≤ a ≤ hi·n then the rounded quotient a/n lies in [lo, hi] |
| Detection.Delay | src/pages/Index.tsx:31 | the timer delay `Math.random() * 3000 + 2000` lies in [2000, 5000) for every draw |
| Detection.FileTypeOf | src/pages/Index.tsx:40-41 | the recorded kind is video iff the MIME type starts with "video", audio iff it does not but starts with "audio", image otherwise; so every "video/", "audio/" or "image/" type gets its own kind |
| Detection.AnalysisDetails | src/pages/Index.tsx:45-46 | the analysis text, though it repeats the prefix tests itself, is the sentence for the kind `FileTypeOf` records |
| Detection.BuildResult | src/pages/Index.tsx:33-48 | the result keeps the file name, id and time. fileType is video iff the MIME type starts with "video", else audio iff it starts with "audio", else image. The verdict is Real iff the raw draw ×100 exceeds 50. Confidence is the rounded draw, in [0,100] for a genuine draw. Fake implies confidence ≤ 50 and Real implies ≥ 50. processingTime is within ½ of the timer delay and in [2000,5000] for a delay in [2000,5000). analysisDetails names the model of the recorded fileType |
| Detection.DetailsDetermineFileType | src/pages/Index.tsx:45-46 | two media kinds get the same analysis text iff they are the same kind |
| Detection.BuildResultWellFormed | src/pages/Index.tsx:31-47 | every result built from genuine draws is well formed: confidence in [0,100], processingTime in [2000,5000], verdict consistent with confidence, details matching the type |
| Detection.VerdictFromStoredConfidence | src/pages/Index.tsx:34-42 | for a well-formed result whose stored confidence is not 50, the verdict is Real iff the confidence exceeds 50 |
| Detection.StoredFiftyIsAmbiguous | src/pages/Index.tsx:34-42 | draws 0.5 and 0.502 both store confidence 50, the first as Fake and the second as Real |
| Detection.ProcessingTimeReaches5000 | src/pages/Index.tsx:31-47 | the genuine draw 0.9999 gives a stored processing time of exactly 5000 |
| Session.PrependKeepsNewestFirst | src/pages/Index.tsx:51 | prepending the new result to a newest-first history gives a newest-first history of the completions extended by that result |
| Session.Controller.constructor | src/pages/Index.tsx:22-25 | a new session shows the upload view, has no current result, an empty history, is not processing and has nothing scheduled |
| Session.Controller.Shown | src/pages/Index.tsx:62-84 | the upload screen shows iff the view is upload. The results screen shows iff the view is results and a result is present, and it shows that result. The dashboard shows iff the view is dashboard, with the history. Nothing shows only when the results view lacks a result |
| Session.Controller.StartUpload | src/pages/Index.tsx:27-33 | only the processing flag changes (to true); the returned timer carries the file and the delay `Delay(u)` and is added to the scheduled timers |
| Session.Controller.CompleteUpload | src/pages/Index.tsx:33-54 | consumes one scheduled timer. The result is the one built from that timer's file and delay, and it is well formed. It becomes current; the history becomes that result prepended to the old history, with nothing removed or reordered. The view becomes results and processing false. The history stays the completions newest first, so its length is the number of completions and its head is the latest |
| Session.Controller.SelectResult | src/pages/Index.tsx:79-82 | from any view: the given result becomes current and the view becomes results; history and processing unchanged |
| Session.Controller.BackToUpload | src/pages/Index.tsx:72 | only the view changes, to upload |
| Session.Controller.Navigate | src/pages/Index.tsx:59 | only the view changes, to the given one. Switching to upload or dashboard (the header's tabs) always leaves a renderable state; switching to results without a current result renders nothing |
| Upload.SomePrefix | src/components/UploadSection.tsx:45 | `some(startsWith)` holds iff one of the listed prefixes is a prefix of the MIME type |
| Upload.Accepts | src/components/UploadSection.tsx:44-45 | a file is accepted iff its MIME type starts with "video/", "audio/" or "image/" |
| Upload.FileTypeIcon | src/components/UploadSection.tsx:66-70 | the video icon iff the MIME type starts with "video/", the audio icon iff it does not but starts with "audio/", the image icon otherwise |
| Upload.IconAgreesWithFileType | src/components/UploadSection.tsx:66-70 | for every accepted MIME type the upload icon is the icon of the fileType the page records |
| Upload.IconMayDisagreeWhenRejected | src/components/UploadSection.tsx:66-70 | "videogame" is rejected; the page would record it as video while the icon is the image icon |
| Upload.Tick | src/components/UploadSection.tsx:55-62 | the updater stops and fires iff the previous progress is at least 100, and then returns 100; otherwise it adds 10. It maps displayable progress values (multiples of 10 in [0,100]) to displayable values |
| Upload.UploadTrace | src/components/UploadSection.tsx:53-63 | an accepted upload shows 12 progress values: 0, then 10·k for k up to 10, then 100 once more |
| Upload.UploadTraceShape | src/components/UploadSection.tsx:53-63 | every value shown is a multiple of 10 in [0,100], and the values never decrease |
| Upload.InlineBarVisible | src/components/UploadSection.tsx:173 | of the values the progress can take, the inline bar shows exactly for 10 to 90 |
| Upload.InlineBarDuringUpload | src/components/UploadSection.tsx:173 | during an accepted upload the inline bar is visible exactly for the values 10 to 90 |
| Upload.Uploader.constructor | src/components/UploadSection.tsx:11-12 | not dragging, progress 0, nothing handed on |
| Upload.Uploader.HandleDrag | src/components/UploadSection.tsx:15-23 | dragenter and dragover set the highlight, dragleave clears it, any other event type leaves it; nothing else changes |
| Upload.Uploader.HandleDrop | src/components/UploadSection.tsx:25-33 | the highlight is cleared. Only the first dropped file is considered, if one exists. It is handed on iff it is accepted; otherwise progress and the callback log are untouched |
| Upload.Uploader.HandleChange | src/components/UploadSection.tsx:35-40 | the highlight is untouched. Only the first selected file is considered, if one exists. It is handed on iff it is accepted |
| Upload.Uploader.HandleFile | src/components/UploadSection.tsx:42-64 | a rejected file changes nothing and is not handed on. An accepted file resets progress to 0 and runs the updater 11 times: ten calls add 10, and the eleventh sees 100, keeps it, stops the interval and hands the file on. Progress ends at 100, only multiples of 10 in [0,100] are shown, and the file is handed to the page exactly once |
| Dashboard.Count | src/components/Dashboard.tsx:12-13 | a verdict's count never exceeds the number of scans |
| Dashboard.RealDetected | src/components/Dashboard.tsx:13 | the real count is the number of scans minus the fake count |
| Dashboard.FakeDetected | src/components/Dashboard.tsx:12 | the fake count is the number of scans minus the real count |
| Dashboard.CountsPartition | src/components/Dashboard.tsx:11-13 | real plus fake counts equal the total number of scans |
| Dashboard.SumConfidence | src/components/Dashboard.tsx:15 | when every confidence is in [0,100] the sum is in [0, 100·n] |
| Dashboard.AvgConfidence | src/components/Dashboard.tsx:14-16 | 0 for an empty history, else `Math.round(sum / n)`, lying between the smallest and the largest confidence |
| Dashboard.AvgConfidenceInRange | src/components/Dashboard.tsx:14-16 | over well-formed results the average confidence is in [0,100] |
| Dashboard.Percent | src/components/Dashboard.tsx:57 | 0 when there are no scans, else `Math.round((k / n) * 100)` computed over exact reals, always in [0,100] |
| Dashboard.RealPercent | src/components/Dashboard.tsx:57 | 0 for an empty history, else the rounded real share of the scans in percent, in [0,100] |
| Dashboard.FakePercent | src/components/Dashboard.tsx:68 | 0 for an empty history, else the rounded fake share of the scans in percent, in [0,100] |
| Dashboard.PercentComplement | src/components/Dashboard.tsx:57-68 | the rounded percentages of k and of n − k out of n add up to 100 or 101 |
| Dashboard.PercentagesSum | src/components/Dashboard.tsx:57-68 | for a non-empty history the real and fake percentages add up to 100 or 101 |
| Dashboard.PercentagesMaySumTo101 | src/components/Dashboard.tsx:57-68 | 3 of 8 shows 38% and 5 of 8 shows 63% |
| Dashboard.VerdictIcon | src/components/Dashboard.tsx:18-22 | the check icon iff the verdict is Real, else the cross icon |
| Dashboard.VerdictBadge | src/components/Dashboard.tsx:24-28 | the badge is green iff the verdict is Real, else red |
| Dashboard.Panel | src/components/Dashboard.tsx:94-125 | the empty-state panel iff the history is empty; otherwise one row per entry in history order, each carrying that entry with its verdict's icon and badge: check and green for Real, cross and red for Fake |
| Dashboard.Clicked | src/components/Dashboard.tsx:102-105 | clicking row i of the panel hands exactly the i-th history entry to the select callback |
| Results.VerdictIcon | src/components/ResultsSection.tsx:11-17 | the check icon iff the verdict is Real, else the cross icon |
| Results.VerdictGradient | src/components/ResultsSection.tsx:19-23 | the verdict gradient is green iff Real, else red |
| Results.ScreensAgreeOnVerdict | src/components/ResultsSection.tsx:11-23 | the results screen and the dashboard list choose the same icon and colour for every verdict |
| Results.ConfidenceColor | src/components/ResultsSection.tsx:25-29 | the tiers partition the confidences: green iff ≥ 80, yellow iff 60–79, red iff < 60 |
| Results.BarGradient | src/components/ResultsSection.tsx:131-135 | the bar gradient, written with its own thresholds, is the tier of the confidence text colour for every confidence |
| Results.ConfidenceBar | src/components/ResultsSection.tsx:131-136 | the bar's gradient matches the confidence text colour; its width is the confidence percentage, in [0,100] for a well-formed result |
| Results.ShowsManipulationWarning | src/components/ResultsSection.tsx:103 | the manipulation warning shows iff the verdict gradient is red, iff the verdict icon is the cross |
| Results.Timeline | src/components/ResultsSection.tsx:173-177 | four steps in order: File Upload 0 ms, Pre-processing 200 ms, AI Analysis processingTime − 300 ms, Result Generation 100 ms; their times add up to the processing time. The AI-analysis time is at least 1700 when the processing time is at least 2000, and in [1700, 4700] for a well-formed result |

## Left out

- Markup, CSS classes, layout and the lucide icon components: icons and colour families are enum values.
- Wall-clock timing of `setTimeout` and `setInterval`: the timer is a `Timer` value and the interval is a loop of ticks.
- `Math.random()`: its results are parameters in [0, 1). IEEE-754 rounding of the float arithmetic is not modelled; arithmetic is exact. This can change a shown digit: in doubles `(23 / 40) * 100` is 57.49999999999999, so the page shows 57% where `Percent(23, 40)` is 58 (likewise 29 of 200: 14% against 15). `RealPercent` and `FakePercent` are the exact-arithmetic percentages, not always the digits the page prints.
- The `Date.now()` id and the `new Date()` timestamp: both are parameters. The code does not make ids unique, so no uniqueness is claimed. Date formatting is not modelled.
- `alert` on a rejected file, DOM event objects, `preventDefault`/`stopPropagation` and `fileInputRef.click()`: browser I/O. A missing `FileList` is modelled as an empty sequence of files.
- Overlapping submissions and interleaved timers, and React's batching or double invocation of state updaters: submissions and ticks are sequential. Several scheduled timers may exist; each runs once.
- The upload section hides its drop zone while the page is processing. That rendering switch, and the spinner view's bar, are not modelled.
- The header, hero and footer components are not part of this model. They hold static copy, and the advertised 100MB limit and accuracy figure are never checked. The header only calls the view setter with the upload and dashboard views; `Navigate` accepts any view.
- The connection between the upload section and the page is not composed into one model: a file the uploader hands on is what `StartUpload` receives.
