/**
 The detection result of the index page (src/pages/Index.tsx) and the pure part of its
 upload handler: how a finished analysis turns a file, the timer delay and a random draw
 into a `DetectionResult`. The random draws are parameters; the clock readings behind the
 result's `id` and `timestamp` are parameters too.
 */
module Detection {
  import opened Rounding

  datatype FileType = Video | Audio | Image

  datatype Verdict = Real | Fake

  /** The browser's `File`, reduced to the two properties the page reads. */
  datatype File = File(name: string, mimeType: string)

  datatype DetectionResult = DetectionResult(
    id: string,
    fileName: string,
    fileType: FileType,
    confidence: int,
    verdict: Verdict,
    timestamp: int,
    analysisDetails: string,
    processingTime: int)

  /** The media kind the page records, decided by the bare prefixes "video" and "audio", in that order. */
  function FileTypeOf(mime: string): (t: FileType)
    ensures t == Video <==> "video" <= mime
    ensures t == Audio <==> !("video" <= mime) && "audio" <= mime
    ensures t == Image <==> !("video" <= mime) && !("audio" <= mime)
    ensures "video/" <= mime ==> t == Video
    ensures "audio/" <= mime ==> t == Audio
    ensures "image/" <= mime ==> t == Image
  {
    assert "video/" <= mime ==> mime[..5] == "video";
    assert "audio/" <= mime ==> mime[0] == 'a' && mime[..5] == "audio";
    assert "image/" <= mime ==> mime[0] == 'i';
    if "video" <= mime then Video
    else if "audio" <= mime then Audio
    else Image
  }

  /** The (fictitious) model the analysis text names for each media kind. */
  function ModelName(t: FileType): string {
    match t
    case Video => "XceptionNet"
    case Audio => "Resemblyzer"
    case Image => "GAN-detection"
  }

  /** The analysis sentence for a media kind. */
  function DetailsFor(t: FileType): string {
    "Advanced " + ModelName(t) + " analysis completed"
  }

  /** The analysis sentence as the page builds it: it repeats the prefix tests on the MIME type. */
  function AnalysisDetails(mime: string): (d: string)
    ensures d == DetailsFor(FileTypeOf(mime))
  {
    "Advanced "
    + (if "video" <= mime then "XceptionNet" else if "audio" <= mime then "Resemblyzer" else "GAN-detection")
    + " analysis completed"
  }

  /** Distinct media kinds get distinct analysis sentences, so the sentence tells the kind. */
  lemma DetailsDetermineFileType(t1: FileType, t2: FileType)
    ensures DetailsFor(t1) == DetailsFor(t2) <==> t1 == t2
  {
    assert DetailsFor(t1)[9] == ModelName(t1)[0];
    assert DetailsFor(t2)[9] == ModelName(t2)[0];
  }

  /** The timer delay `Math.random() * 3000 + 2000`, in milliseconds. */
  function Delay(u: real): (d: real)
    ensures IsDraw(u) ==> 2000.0 <= d < 5000.0
  {
    u * 3000.0 + 2000.0
  }

  /**
   The result the completion callback records for `file`, given the delay the timer ran
   with, the draw `u` behind the confidence, the id string and the completion time.
   */
  function BuildResult(file: File, delay: real, u: real, id: string, now: int): (r: DetectionResult)
    ensures r.id == id && r.fileName == file.name && r.timestamp == now
    ensures r.fileType == Video <==> "video" <= file.mimeType
    ensures r.fileType == Audio <==> !("video" <= file.mimeType) && "audio" <= file.mimeType
    ensures r.verdict == Real <==> u * 100.0 > 50.0
    ensures r.confidence == Round(u * 100.0)
    ensures r.verdict == Fake ==> r.confidence <= 50
    ensures r.verdict == Real ==> r.confidence >= 50
    ensures IsDraw(u) ==> 0 <= r.confidence <= 100
    ensures delay - 0.5 < r.processingTime as real <= delay + 0.5
    ensures 2000.0 <= delay < 5000.0 ==> 2000 <= r.processingTime <= 5000
    ensures r.analysisDetails == DetailsFor(r.fileType)
  {
    var raw := u * 100.0;
    DetectionResult(
      id,
      file.name,
      FileTypeOf(file.mimeType),
      Round(raw),
      if raw > 50.0 then Real else Fake,
      now,
      AnalysisDetails(file.mimeType),
      Round(delay))
  }

  /** What every result the page can produce satisfies. */
  predicate WellFormed(r: DetectionResult) {
    && 0 <= r.confidence <= 100
    && 2000 <= r.processingTime <= 5000
    && (r.verdict == Fake ==> r.confidence <= 50)
    && (r.verdict == Real ==> r.confidence >= 50)
    && r.analysisDetails == DetailsFor(r.fileType)
  }

  /** A result built from genuine `Math.random()` draws is well formed. */
  lemma BuildResultWellFormed(file: File, du: real, u: real, id: string, now: int)
    requires IsDraw(du) && IsDraw(u)
    ensures WellFormed(BuildResult(file, Delay(du), u, id, now))
  {
  }

  /**
   Away from 50 the stored confidence tells the verdict; at 50 it does not (see
   StoredFiftyIsAmbiguous), because the verdict is taken before rounding.
   */
  lemma VerdictFromStoredConfidence(r: DetectionResult)
    requires WellFormed(r) && r.confidence != 50
    ensures r.verdict == Real <==> r.confidence > 50
  {
  }

  /** A stored confidence of 50 can carry either verdict. */
  lemma StoredFiftyIsAmbiguous(file: File, delay: real, id: string, now: int)
    ensures IsDraw(0.5) && IsDraw(0.502)
    ensures BuildResult(file, delay, 0.5, id, now).confidence == 50
    ensures BuildResult(file, delay, 0.5, id, now).verdict == Fake
    ensures BuildResult(file, delay, 0.502, id, now).confidence == 50
    ensures BuildResult(file, delay, 0.502, id, now).verdict == Real
  {
    assert Round(0.5 * 100.0) == 50;
    assert Round(0.502 * 100.0) == 50;
  }

  /** The stored processing time reaches 5000 ms, the top of the range, after rounding. */
  lemma ProcessingTimeReaches5000(file: File, u: real, id: string, now: int)
    ensures IsDraw(0.9999)
    ensures BuildResult(file, Delay(0.9999), u, id, now).processingTime == 5000
  {
    assert Delay(0.9999) == 4999.7;
    assert Round(4999.7) == 5000;
  }
}
