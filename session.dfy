/**
 The session state of the index page (src/pages/Index.tsx): the current view, the result
 on screen, the history of finished analyses (newest first) and the processing flag.
 The upload handler is split into the step that schedules the timer and the timer's
 completion callback; the random draws and clock readings are parameters.
 */
module Session {
  import opened Rounding
  import opened Detection

  datatype Option<T> = None | Some(value: T)

  datatype View = UploadView | ResultsView | DashboardView

  /** A scheduled completion callback: the file it closes over and the delay it runs after. */
  datatype Timer = Timer(file: File, delay: real)

  /** What the page's main area shows. */
  datatype Screen =
    | UploadScreen(processing: bool)
    | ResultsScreen(result: DetectionResult)
    | DashboardScreen(history: seq<DetectionResult>)
    | Blank

  /** `history` lists the results of `completed` (oldest first) newest first. */
  ghost predicate NewestFirst(history: seq<DetectionResult>, completed: seq<DetectionResult>) {
    && |history| == |completed|
    && forall k :: 0 <= k < |history| ==> history[k] == completed[|completed| - 1 - k]
  }

  /** Prepending a newly completed result keeps the history newest first. */
  lemma PrependKeepsNewestFirst(history: seq<DetectionResult>, completed: seq<DetectionResult>, r: DetectionResult)
    requires NewestFirst(history, completed)
    ensures NewestFirst([r] + history, completed + [r])
  {
    var h, c := [r] + history, completed + [r];
    forall k | 0 <= k < |h|
      ensures h[k] == c[|c| - 1 - k]
    {
      if k > 0 {
        assert h[k] == history[k - 1];
        assert c[|c| - 1 - k] == completed[|completed| - 1 - (k - 1)];
      }
    }
  }

  class Controller {
    var view: View
    var current: Option<DetectionResult>
    var history: seq<DetectionResult>
    var processing: bool
    /** Every result the completion callback has produced, oldest first. */
    ghost var completed: seq<DetectionResult>
    /** The completion callbacks scheduled and not yet run. */
    ghost var scheduled: multiset<Timer>

    ghost predicate Valid()
      reads this
    {
      && NewestFirst(history, completed)
      && (forall i :: 0 <= i < |history| ==> WellFormed(history[i]))
      && (forall t | t in scheduled :: 2000.0 <= t.delay < 5000.0)
    }

    /** The results view always has a result to show. */
    predicate ResultsReady()
      reads this
    {
      view == ResultsView ==> current.Some?
    }

    /** The page's main area: the results screen renders only when a result is present. */
    function Shown(): (s: Screen)
      reads this
      ensures s.UploadScreen? <==> view == UploadView
      ensures s.UploadScreen? ==> s.processing == processing
      ensures s.ResultsScreen? <==> view == ResultsView && current.Some?
      ensures s.ResultsScreen? ==> s.result == current.value
      ensures s.DashboardScreen? <==> view == DashboardView
      ensures s.DashboardScreen? ==> s.history == history
      ensures s.Blank? <==> !ResultsReady()
    {
      match view
      case UploadView => UploadScreen(processing)
      case ResultsView => if current.Some? then ResultsScreen(current.value) else Blank
      case DashboardView => DashboardScreen(history)
    }

    constructor ()
      ensures Valid() && ResultsReady()
      ensures view == UploadView && current == None && history == [] && !processing
      ensures completed == [] && scheduled == multiset{}
    {
      view, current, history, processing := UploadView, None, [], false;
      completed, scheduled := [], multiset{};
    }

    /** The synchronous part of the upload handler: raise the flag and schedule the timer. */
    method StartUpload(file: File, u: real) returns (t: Timer)
      requires Valid() && IsDraw(u)
      modifies this
      ensures Valid()
      ensures t == Timer(file, Delay(u))
      ensures processing
      ensures scheduled == old(scheduled) + multiset{t}
      ensures view == old(view) && current == old(current)
      ensures history == old(history) && completed == old(completed)
    {
      processing := true;
      t := Timer(file, Delay(u));
      scheduled := scheduled + multiset{t};
    }

    /** The timer's callback: record the result, prepend it to the history and show it. */
    method CompleteUpload(t: Timer, u: real, id: string, now: int) returns (r: DetectionResult)
      requires Valid() && t in scheduled && IsDraw(u)
      modifies this
      ensures Valid() && ResultsReady()
      ensures r == BuildResult(t.file, t.delay, u, id, now) && WellFormed(r)
      ensures current == Some(r) && view == ResultsView && !processing
      ensures history == [r] + old(history)
      ensures completed == old(completed) + [r]
      ensures scheduled == old(scheduled) - multiset{t}
    {
      r := BuildResult(t.file, t.delay, u, id, now);
      PrependKeepsNewestFirst(history, completed, r);
      current := Some(r);
      history := [r] + history;
      view := ResultsView;
      processing := false;
      completed := completed + [r];
      scheduled := scheduled - multiset{t};
    }

    /** A dashboard entry was clicked: show that result. */
    method SelectResult(r: DetectionResult)
      requires Valid()
      modifies this
      ensures Valid() && ResultsReady()
      ensures current == Some(r) && view == ResultsView
      ensures history == old(history) && processing == old(processing)
      ensures completed == old(completed) && scheduled == old(scheduled)
    {
      current := Some(r);
      view := ResultsView;
    }

    /** The results screen's back button. */
    method BackToUpload()
      requires Valid()
      modifies this
      ensures Valid() && ResultsReady()
      ensures view == UploadView
      ensures current == old(current) && history == old(history) && processing == old(processing)
      ensures completed == old(completed) && scheduled == old(scheduled)
    {
      view := UploadView;
    }

    /** The view setter handed to the header, whose tabs name the upload and dashboard views. */
    method Navigate(v: View)
      requires Valid()
      modifies this
      ensures Valid()
      ensures view == v
      ensures v != ResultsView ==> ResultsReady()
      ensures v == ResultsView && current.None? ==> Shown() == Blank
      ensures current == old(current) && history == old(history) && processing == old(processing)
      ensures completed == old(completed) && scheduled == old(scheduled)
    {
      view := v;
    }
  }

  /** A client: uploading `clip.mp4` records a video result, prepends it and shows it. */
  method ClipScenario()
  {
    var page := new Controller();
    var clip := File("clip.mp4", "video/mp4");
    var t := page.StartUpload(clip, 0.25);
    assert page.processing && page.view == UploadView;
    var r := page.CompleteUpload(t, 0.9, "1700000000000", 1700000000000);
    assert r.fileType == Video && r.verdict == Real;
    assert r.analysisDetails[9..20] == "XceptionNet";
    assert page.history == [r] && page.view == ResultsView && page.Shown() == ResultsScreen(r);
    page.Navigate(DashboardView);
    page.SelectResult(page.history[0]);
    assert page.Shown() == ResultsScreen(r) && |page.history| == 1;
  }
}
