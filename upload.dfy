/**
 The upload section (src/components/UploadSection.tsx): the MIME-type check, the drag
 highlight flag, and the simulated upload progress that an interval timer drives from
 0 to 100 in steps of 10 before handing the file to the page. The interval is a loop of
 explicit ticks; the page's upload callback is a log of the files handed to it.
 */
module Upload {
  import opened Detection
  import opened Display

  /** The accepted MIME-type prefixes, in the order they are tried. */
  const ValidTypes: seq<string> := ["video/", "audio/", "image/"]

  /** `types.some(type => mime.startsWith(type))`. */
  function SomePrefix(types: seq<string>, mime: string): (b: bool)
    ensures b <==> exists i :: 0 <= i < |types| && types[i] <= mime
  {
    if types == [] then false
    else if types[0] <= mime then true
    else
      var rest := SomePrefix(types[1..], mime);
      assert forall i :: 1 <= i < |types| ==> types[i] == types[1..][i - 1];
      rest
  }

  /** The file-type check: accepted exactly when the MIME type starts with "video/", "audio/" or "image/". */
  function Accepts(mime: string): (b: bool)
    ensures b <==> "video/" <= mime || "audio/" <= mime || "image/" <= mime
  {
    assert ValidTypes[0] == "video/" && ValidTypes[1] == "audio/" && ValidTypes[2] == "image/";
    SomePrefix(ValidTypes, mime)
  }

  /** The icon drawn for a MIME type: video, then audio, everything else an image. */
  function FileTypeIcon(mime: string): (i: Icon)
    ensures i == VideoIcon <==> "video/" <= mime
    ensures i == AudioWaveformIcon <==> !("video/" <= mime) && "audio/" <= mime
    ensures i == ImageIcon <==> !("video/" <= mime) && !("audio/" <= mime)
  {
    if "video/" <= mime then VideoIcon
    else if "audio/" <= mime then AudioWaveformIcon
    else ImageIcon
  }

  /** The icon that stands for each media kind the page records. */
  function IconOf(t: FileType): Icon {
    match t
    case Video => VideoIcon
    case Audio => AudioWaveformIcon
    case Image => ImageIcon
  }

  /** For every accepted file the upload icon agrees with the media kind the page records. */
  lemma IconAgreesWithFileType(mime: string)
    requires Accepts(mime)
    ensures FileTypeIcon(mime) == IconOf(FileTypeOf(mime))
  {
    if "video/" <= mime {
      assert mime[..5] == "video";
    } else if "audio/" <= mime {
      assert mime[0] == 'a';
      assert mime[..5] == "audio";
    } else {
      assert mime[0] == 'i';
    }
  }

  /** Outside the accepted types the two can disagree: the page records "videogame" as a video. */
  lemma IconMayDisagreeWhenRejected()
    ensures !Accepts("videogame")
    ensures FileTypeOf("videogame") == Video && FileTypeIcon("videogame") == ImageIcon
  {
    assert "video" <= "videogame";
    assert "videogame"[5] == 'g' && "videogame"[0] == 'v';
  }

  /** One call of the interval's state updater: the new progress and whether it stopped and fired. */
  datatype TickOutcome = TickOutcome(next: int, fired: bool)

  function Tick(prev: int): (o: TickOutcome)
    ensures o.fired <==> prev >= 100
    ensures o.fired ==> o.next == 100
    ensures !o.fired ==> o.next == prev + 10
    ensures ProgressValue(prev) ==> ProgressValue(o.next)
  {
    if prev >= 100 then TickOutcome(100, true) else TickOutcome(prev + 10, false)
  }

  /** The progress values an accepted upload shows: the reset to 0, ten steps to 100, then 100 once more. */
  function UploadTrace(): (s: seq<int>)
    ensures |s| == 12 && s[0] == 0 && s[10] == 100 && s[11] == 100
    ensures forall k :: 0 <= k < 11 ==> s[k] == 10 * k
  {
    seq(11, k => 10 * k) + [100]
  }

  /** A progress value the bar can show. */
  predicate ProgressValue(p: int) {
    0 <= p <= 100 && p % 10 == 0
  }

  /** Every value of the trace is a multiple of 10 in [0, 100], and the trace never goes back. */
  lemma UploadTraceShape()
    ensures forall k :: 0 <= k < |UploadTrace()| ==> ProgressValue(UploadTrace()[k])
    ensures forall j, k :: 0 <= j <= k < |UploadTrace()| ==> UploadTrace()[j] <= UploadTrace()[k]
  {
    var s := UploadTrace();
    forall k | 0 <= k < |s|
      ensures ProgressValue(s[k])
    {
      if k < 11 {
        assert s[k] == 10 * k;
      }
    }
  }

  /**
   The inline upload bar, shown only while the progress is strictly between 0 and 100:
   of the values the progress can take, those from 10 to 90.
   */
  function InlineBarVisible(progress: int): (b: bool)
    ensures ProgressValue(progress) ==> (b <==> 10 <= progress <= 90)
  {
    0 < progress < 100
  }

  /** During an accepted upload the inline bar shows for the nine values 10 to 90 and no other. */
  lemma InlineBarDuringUpload(k: nat)
    requires k < |UploadTrace()|
    ensures InlineBarVisible(UploadTrace()[k]) <==> 1 <= k <= 9
  {
  }

  class Uploader {
    var dragActive: bool
    var progress: int
    /** The files handed to the page's upload callback, first call first. */
    var forwarded: seq<File>
    /** Every value the progress has shown so far. */
    ghost var shown: seq<int>

    ghost predicate Valid()
      reads this
    {
      && |shown| > 0 && shown[|shown| - 1] == progress
      && forall k :: 0 <= k < |shown| ==> ProgressValue(shown[k])
    }

    constructor ()
      ensures Valid()
      ensures !dragActive && progress == 0 && forwarded == [] && shown == [0]
    {
      dragActive, progress, forwarded := false, 0, [];
      shown := [0];
    }

    /** Drag enter, over and leave: only those three event types change the highlight. */
    method HandleDrag(eventType: string)
      requires Valid()
      modifies this
      ensures Valid()
      ensures eventType == "dragenter" || eventType == "dragover" ==> dragActive
      ensures eventType == "dragleave" ==> !dragActive
      ensures eventType !in {"dragenter", "dragover", "dragleave"} ==> dragActive == old(dragActive)
      ensures progress == old(progress) && forwarded == old(forwarded) && shown == old(shown)
    {
      if eventType == "dragenter" || eventType == "dragover" {
        dragActive := true;
      } else if eventType == "dragleave" {
        dragActive := false;
      }
    }

    /** A drop clears the highlight and hands on the first dropped file, if there is one. */
    method HandleDrop(files: seq<File>) returns (accepted: bool)
      requires Valid()
      modifies this
      ensures Valid()
      ensures !dragActive
      ensures accepted <==> |files| > 0 && Accepts(files[0].mimeType)
      ensures accepted ==> forwarded == old(forwarded) + [files[0]] && progress == 100
      ensures accepted ==> shown == old(shown) + UploadTrace()
      ensures !accepted ==> forwarded == old(forwarded) && progress == old(progress) && shown == old(shown)
    {
      dragActive := false;
      accepted := false;
      if |files| > 0 {
        var ticks;
        accepted, ticks := HandleFile(files[0]);
      }
    }

    /** The file input changed: hand on its first file, if there is one. */
    method HandleChange(files: seq<File>) returns (accepted: bool)
      requires Valid()
      modifies this
      ensures Valid()
      ensures dragActive == old(dragActive)
      ensures accepted <==> |files| > 0 && Accepts(files[0].mimeType)
      ensures accepted ==> forwarded == old(forwarded) + [files[0]] && progress == 100
      ensures accepted ==> shown == old(shown) + UploadTrace()
      ensures !accepted ==> forwarded == old(forwarded) && progress == old(progress) && shown == old(shown)
    {
      accepted := false;
      if |files| > 0 {
        var ticks;
        accepted, ticks := HandleFile(files[0]);
      }
    }

    /**
     Check the type; for an accepted file reset the progress and run the interval until
     its updater sees 100, stops and hands the file on. Returns whether the file was
     accepted (a rejected file only raises an alert) and, when it was, the ticks run.
     */
    method HandleFile(file: File) returns (accepted: bool, ticks: nat)
      requires Valid()
      modifies this
      ensures Valid()
      ensures accepted <==> Accepts(file.mimeType)
      ensures dragActive == old(dragActive)
      ensures accepted ==> forwarded == old(forwarded) + [file] && progress == 100 && ticks == 11
      ensures accepted ==> shown == old(shown) + UploadTrace()
      ensures !accepted ==> forwarded == old(forwarded) && progress == old(progress) && shown == old(shown)
      ensures !accepted ==> ticks == 0
    {
      ticks := 0;
      accepted := Accepts(file.mimeType);
      if !accepted {
        return;
      }
      ghost var trace := UploadTrace();
      ghost var before := shown;
      progress := 0;
      shown := shown + [0];
      var running := true;
      while running
        invariant 0 <= ticks <= 11
        invariant Valid()
        invariant dragActive == old(dragActive)
        invariant running ==> progress == 10 * ticks && ticks <= 10
        invariant running ==> forwarded == old(forwarded) && shown == before + trace[..ticks + 1]
        invariant !running ==> ticks == 11 && progress == 100
        invariant !running ==> forwarded == old(forwarded) + [file] && shown == before + trace
        decreases 11 - ticks
      {
        var o := Tick(progress);
        progress := o.next;
        shown := shown + [progress];
        assert trace[..ticks + 2] == trace[..ticks + 1] + [trace[ticks + 1]];
        if o.fired {
          forwarded := forwarded + [file];
          running := false;
        }
        ticks := ticks + 1;
      }
    }
  }
}
