/**
 The results screen (src/components/ResultsSection.tsx): how a result's verdict and
 confidence choose icons and colours, when the manipulation warning shows, the
 confidence bar, and the processing timeline derived from the processing time.
 */
module Results {
  import opened Detection
  import opened Display
  import Dashboard

  /** The large verdict icon. */
  function VerdictIcon(r: DetectionResult): (i: Icon)
    ensures i == CheckCircle <==> r.verdict == Real
    ensures i == CheckCircle || i == XCircle
  {
    if r.verdict == Real then CheckCircle else XCircle
  }

  /** The results screen and the dashboard list draw the same icon and colour for a verdict. */
  lemma ScreensAgreeOnVerdict(r: DetectionResult)
    ensures VerdictIcon(r) == Dashboard.VerdictIcon(r.verdict)
    ensures VerdictGradient(r) == Dashboard.VerdictBadge(r.verdict)
  {
  }

  /** The gradient of the verdict pill. */
  function VerdictGradient(r: DetectionResult): (t: Tone)
    ensures t == Green <==> r.verdict == Real
    ensures t == Green || t == Red
  {
    if r.verdict == Real then Green else Red
  }

  /** The colour of the confidence figure: the thresholds 80 and 60 are tried in that order. */
  function ConfidenceColor(c: int): (t: Tone)
    ensures t == Green <==> c >= 80
    ensures t == Yellow <==> 60 <= c < 80
    ensures t == Red <==> c < 60
  {
    if c >= 80 then Green else if c >= 60 then Yellow else Red
  }

  /** The gradient of the confidence bar, written with its own copy of the thresholds. */
  function BarGradient(c: int): (t: Tone)
    ensures t == ConfidenceColor(c)
  {
    if c >= 80 then Green
    else if c >= 60 then Yellow
    else Red
  }

  /** The confidence bar: its colour and its width as a percentage of the track. */
  datatype Bar = Bar(tone: Tone, widthPercent: int)

  function ConfidenceBar(r: DetectionResult): (b: Bar)
    ensures b.tone == ConfidenceColor(r.confidence)
    ensures b.widthPercent == r.confidence
    ensures WellFormed(r) ==> 0 <= b.widthPercent <= 100
  {
    Bar(BarGradient(r.confidence), r.confidence)
  }

  /** The "Manipulation Detected" notice: shown exactly when the verdict icon is the cross and the pill is red. */
  function ShowsManipulationWarning(r: DetectionResult): (b: bool)
    ensures b <==> VerdictGradient(r) == Red
    ensures b <==> VerdictIcon(r) == XCircle
  {
    r.verdict == Fake
  }

  /** A step of the processing timeline and the time it is shown with, in milliseconds. */
  datatype Step = Step(name: string, ms: int)

  function Timeline(r: DetectionResult): (s: seq<Step>)
    ensures |s| == 4
    ensures s[0] == Step("File Upload", 0) && s[1] == Step("Pre-processing", 200)
    ensures s[2] == Step("AI Analysis", r.processingTime - 300)
    ensures s[3] == Step("Result Generation", 100)
    ensures s[0].ms + s[1].ms + s[2].ms + s[3].ms == r.processingTime
    ensures r.processingTime >= 2000 ==> s[2].ms >= 1700
    ensures WellFormed(r) ==> 1700 <= s[2].ms <= 4700
  {
    [ Step("File Upload", 0),
      Step("Pre-processing", 200),
      Step("AI Analysis", r.processingTime - 300),
      Step("Result Generation", 100) ]
  }
}
