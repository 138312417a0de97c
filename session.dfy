/**
 * The session state of the App component in src/App.jsx as a value: the
 * component's useState fields, the events its handlers react to, and Step,
 * the state each handler leaves behind. The class in component.dfy is
 * proved to follow Step; the lemmas here say what Step promises.
 */
module Session {
  import opened Wrappers
  import opened Geometry
  import opened MimeTypes
  import opened Presets

  /** The three mutually exclusive screens. */
  datatype View = Upload | Editor | Result

  /** The component's state; object URLs are opaque strings. */
  datatype State = State(
    videoSrc: Option<string>,
    isProcessing: bool,
    progress: int,
    processedVideoUrl: Option<string>,
    selection: Option<Selection>,
    outputFormat: string,
    qualityPreset: Preset,
    isDragging: bool,
    startPos: Point)
  {
    /** The upload area is rendered (line 187). */
    predicate ShowsUpload() { videoSrc.None? }

    /** The editor is rendered (line 199); the container and video refs are mounted exactly then. */
    predicate ShowsEditor() { videoSrc.Some? && processedVideoUrl.None? }

    /** The result is rendered (line 309). */
    predicate ShowsResult() { processedVideoUrl.Some? }

    /** What every handler keeps. */
    predicate Inv() {
      (processedVideoUrl.Some? ==> videoSrc.Some?)
      && (isProcessing ==> ShowsEditor() && selection.Some?)
      && (selection.Some? ==> selection.value.WellFormed())
      && 0 <= progress <= 100  // the percentage range; the model itself only ever sets 0
    }

    /** The one screen that is rendered. */
    function CurrentView(): (v: View)
      requires Inv()
      ensures ShowsUpload() <==> v == Upload
      ensures ShowsEditor() <==> v == Editor
      ensures ShowsResult() <==> v == Result
    {
      if videoSrc.None? then Upload
      else if processedVideoUrl.None? then Editor
      else Result
    }
  }

  /** The initial values given to useState. */
  function Initial(): (s: State)
    ensures s.Inv() && s.CurrentView() == Upload
    ensures s.selection.None? && !s.isProcessing && !s.isDragging
  {
    State(None, false, 0, None, None, "mp4", Normal, false, Point(0.0, 0.0))
  }

  /** The events the component's handlers receive. */
  datatype Event =
    | FileChosen(fileType: Option<string>, url: string)  // handleFileUpload: the chosen file's type (None: no file) and the object URL made for it
    | PointerDown(at: Coords)                            // handleStart
    | PointerMove(at: Coords)                            // handleMove
    | PointerUp                                          // handleEnd (mouse up, mouse leave, touch end)
    | ClearSelection                                     // resetSelection
    | FormatChosen(format: string)                       // the format selector
    | PresetChosen(preset: Preset)                       // the quality selector
    | StartProcessing                                    // processVideo, its synchronous part
    | RecorderStopped(url: string)                       // mediaRecorder.onstop, with the URL of the result blob
    | StartOver                                          // the restart button of the result view

  /** file.type.startsWith('video/') */
  predicate IsVideoType(fileType: string): (b: bool)
    ensures b <==> |fileType| >= 6 && fileType[..6] == ['v', 'i', 'd', 'e', 'o', '/']
  {
    "video/" <= fileType
  }

  /** handleFileUpload alerts instead of loading. */
  predicate UploadRejected(fileType: Option<string>) { !(fileType.Some? && IsVideoType(fileType.value)) }

  /**
   * When an event can arrive: a control's handler runs only while the
   * control is rendered. The file input is in the upload view; the
   * selectors and the start button are in the editor while not processing,
   * the clear button only with a selection; the restart button is in the
   * result view; the recorder's stop handler exists only while a recording
   * started by processVideo runs. Pointer events are on the editor's
   * container, and Step handles them outside the editor too.
   */
  predicate Enabled(s: State, e: Event): (b: bool)
    ensures s.Inv() && b && e.FileChosen? ==> s.CurrentView() == Upload
    ensures s.Inv() && b && e.StartOver? ==> s.CurrentView() == Result
    ensures s.Inv() && b && (e.ClearSelection? || e.FormatChosen? || e.PresetChosen? || e.StartProcessing?) ==>
              s.CurrentView() == Editor && !s.isProcessing
    ensures s.Inv() && b && e.RecorderStopped? ==> s.CurrentView() == Editor && s.selection.Some?
  {
    match e
    case FileChosen(_, _) => s.ShowsUpload()
    case ClearSelection => s.ShowsEditor() && !s.isProcessing && s.selection.Some?
    case FormatChosen(_) | PresetChosen(_) | StartProcessing => s.ShowsEditor() && !s.isProcessing
    case RecorderStopped(_) => s.isProcessing
    case StartOver => s.ShowsResult()
    case PointerDown(_) | PointerMove(_) | PointerUp => true
  }

  /**
   * The state a handler leaves behind. Only an upload or a restart changes
   * the source; only the recorder's stop publishes a result; only the start
   * button starts processing, and only with a selection; only a press or a
   * move sets a selection, and it is never of negative size.
   */
  function Step(s: State, e: Event): (r: State)
    requires Enabled(s, e)
    ensures r.videoSrc != s.videoSrc ==> e.FileChosen? || e.StartOver?
    ensures r.processedVideoUrl.Some? && r.processedVideoUrl != s.processedVideoUrl ==> e.RecorderStopped?
    ensures r.isProcessing && !s.isProcessing ==> e.StartProcessing? && s.selection.Some?
    ensures r.selection.Some? && r.selection != s.selection ==>
              (e.PointerDown? || e.PointerMove?) && r.selection.value.WellFormed()
  {
    match e
    case FileChosen(fileType, url) =>
      if UploadRejected(fileType) then s
      else s.(videoSrc := Some(url), processedVideoUrl := None, selection := None, progress := 0)
    case PointerDown(at) =>
      // without a mounted container getCoords throws before any setter runs
      if s.isProcessing || !s.ShowsEditor() then s
      else s.(startPos := PointOf(at), isDragging := true, selection := Some(Anchored(PointOf(at))))
    case PointerMove(at) =>
      if !s.isDragging || !s.ShowsEditor() then s
      else s.(selection := Some(DragRect(s.startPos, at)))
    case PointerUp => s.(isDragging := false)
    case ClearSelection => s.(selection := None)
    case FormatChosen(format) => s.(outputFormat := format)
    case PresetChosen(preset) => s.(qualityPreset := preset)
    case StartProcessing =>
      // the video ref is mounted only with the editor
      if !s.ShowsEditor() || s.selection.None? then s
      else s.(isProcessing := true, progress := 0)
    case RecorderStopped(url) => s.(processedVideoUrl := Some(url), isProcessing := false)
    case StartOver => s.(processedVideoUrl := None, videoSrc := None)
  }

  /** What processVideo configures the recorder with. */
  datatype RecorderConfig = RecorderConfig(mimeType: string, videoBitsPerSecond: nat)

  function RecorderSettings(s: State, isTypeSupported: string -> bool): (c: RecorderConfig)
    ensures c.mimeType == Fallback || (c.mimeType in Preferences(s.outputFormat) && isTypeSupported(c.mimeType))
    ensures Lookup(Key(s.qualityPreset)) == Some(s.qualityPreset) && c.videoBitsPerSecond == Bitrate(s.qualityPreset)
  {
    KeysRoundTrip(s.qualityPreset);
    RecorderConfig(FirstSupported(Preferences(s.outputFormat), isTypeSupported), Bitrate(s.qualityPreset))
  }

  /** Handling a sequence of events; None when one arrives that cannot. */
  function Run(s: State, events: seq<Event>): Option<State>
    decreases |events|
  {
    if events == [] then Some(s)
    else if !Enabled(s, events[0]) then None
    else Run(Step(s, events[0]), events[1..])
  }

  /** Every handler keeps the invariant. */
  lemma StepKeepsInv(s: State, e: Event)
    requires s.Inv() && Enabled(s, e)
    ensures Step(s, e).Inv()
  {
  }

  /** So does every sequence of handlers. */
  lemma {:induction false} RunKeepsInv(s: State, events: seq<Event>)
    requires s.Inv()
    ensures Run(s, events).Some? ==> Run(s, events).value.Inv()
    decreases |events|
  {
    if events != [] && Enabled(s, events[0]) {
      StepKeepsInv(s, events[0]);
      RunKeepsInv(Step(s, events[0]), events[1..]);
    }
  }

  /** In every state the user can reach, exactly one of the three screens is rendered. */
  lemma ReachableShowsOneView(events: seq<Event>)
    requires Run(Initial(), events).Some?
    ensures var t := Run(Initial(), events).value;
            t.Inv()
            && (t.ShowsUpload() || t.ShowsEditor() || t.ShowsResult())
            && !(t.ShowsUpload() && t.ShowsEditor())
            && !(t.ShowsUpload() && t.ShowsResult())
            && !(t.ShowsEditor() && t.ShowsResult())
  {
    RunKeepsInv(Initial(), events);
    var v := Run(Initial(), events).value.CurrentView();
  }

  /** A move changes nothing unless a drag is in progress. */
  lemma MoveIgnoredUnlessDragging(s: State, at: Coords)
    requires !s.isDragging
    ensures Step(s, PointerMove(at)) == s
  {
  }

  /** A move during a drag replaces the selection with the normalised rectangle, and nothing else. */
  lemma MoveWhileDragging(s: State, at: Coords)
    requires s.isDragging && s.ShowsEditor()
    ensures var t := Step(s, PointerMove(at));
            t == s.(selection := t.selection)
            && t.selection.Some?
            && t.selection.value.x == Min(s.startPos.x, at.x) && t.selection.value.y == Min(s.startPos.y, at.y)
            && t.selection.value.w == Abs(at.x - s.startPos.x) && t.selection.value.h == Abs(at.y - s.startPos.y)
            && t.selection.value.WellFormed()
  {
    DragRectSize(s.startPos, at);
  }

  /** Outside the editor a pointer event changes nothing, except that a release ends any drag. */
  lemma PointerOutsideEditor(s: State, e: Event)
    requires !s.ShowsEditor() && (e.PointerDown? || e.PointerMove? || e.PointerUp?)
    ensures Step(s, e) == s.(isDragging := !e.PointerUp? && s.isDragging)
  {
  }

  /** A press changes nothing while processing; otherwise it starts a drag from a zero-size selection there. */
  lemma PressStartsDrag(s: State, at: Coords)
    requires s.ShowsEditor()
    ensures s.isProcessing ==> Step(s, PointerDown(at)) == s
    ensures !s.isProcessing ==>
              var t := Step(s, PointerDown(at));
              t.isDragging && t.startPos == PointOf(at)
              && t.selection == Some(Selection(at.x, at.y, 0.0, 0.0, 0.0, 0.0))
              && t == s.(isDragging := true, startPos := t.startPos, selection := t.selection)
  {
  }

  /** Releasing ends the drag and keeps the selection. */
  lemma ReleaseKeepsSelection(s: State)
    ensures Step(s, PointerUp) == s.(isDragging := false)
    ensures Step(s, PointerUp).selection == s.selection
  {
  }

  /** Clearing drops the selection and nothing else; the editor then invites a new drag. */
  lemma ClearDropsSelection(s: State)
    requires s.Inv() && s.ShowsEditor() && !s.isProcessing && s.selection.Some?
    ensures Step(s, ClearSelection) == s.(selection := None)
    ensures Step(s, ClearSelection).Inv() && Step(s, ClearSelection).CurrentView() == Editor
  {
    StepKeepsInv(s, ClearSelection);
  }

  /**
   * A whole drag in the editor, from a to b, leaves the rectangle spanned by
   * the two points whichever way the user dragged, and no drag in progress.
   */
  lemma {:induction false} DragGesture(s: State, a: Coords, b: Coords)
    requires s.ShowsEditor() && !s.isProcessing
    ensures Run(s, [PointerDown(a), PointerMove(b), PointerUp]).Some?
    ensures var t := Run(s, [PointerDown(a), PointerMove(b), PointerUp]).value;
            t.selection == Some(DragRect(PointOf(a), b))
            && !t.isDragging
            && t.selection.value.x == Min(a.x, b.x) && t.selection.value.y == Min(a.y, b.y)
            && t.selection.value.w == Abs(b.x - a.x) && t.selection.value.h == Abs(b.y - a.y)
  {
    var s1 := Step(s, PointerDown(a));
    var s2 := Step(s1, PointerMove(b));
    var s3 := Step(s2, PointerUp);
    assert [PointerDown(a), PointerMove(b), PointerUp][1..] == [PointerMove(b), PointerUp];
    assert [PointerMove(b), PointerUp][1..] == [PointerUp];
    assert Run(s2, [PointerUp]) == Some(s3);
    assert Run(s1, [PointerMove(b), PointerUp]) == Some(s3);
    DragRectSize(PointOf(a), b);
  }

  /** A file that is not a video (or no file) leaves everything as it was. */
  lemma NonVideoRejected(s: State, fileType: Option<string>, url: string)
    requires s.ShowsUpload() && UploadRejected(fileType)
    ensures Step(s, FileChosen(fileType, url)) == s
  {
  }

  /** A video starts a fresh session in the editor: no selection, no result, progress 0. */
  lemma VideoStartsFreshSession(s: State, fileType: string, url: string)
    requires s.Inv() && s.ShowsUpload() && IsVideoType(fileType)
    ensures var t := Step(s, FileChosen(Some(fileType), url));
            t.videoSrc == Some(url) && t.selection.None? && t.processedVideoUrl.None? && t.progress == 0
            && t.CurrentView() == Editor
            && t == s.(videoSrc := Some(url), processedVideoUrl := None, selection := None, progress := 0)
  {
    StepKeepsInv(s, FileChosen(Some(fileType), url));
  }

  /** Processing starts exactly when a selection exists in the editor; zero area is not refused. */
  lemma StartNeedsSelection(s: State)
    requires s.ShowsEditor() && !s.isProcessing
    ensures Step(s, StartProcessing).isProcessing <==> s.selection.Some?
    ensures Step(s, StartProcessing).isProcessing ==>
              Step(s, StartProcessing) == s.(isProcessing := true, progress := 0)
    ensures !Step(s, StartProcessing).isProcessing ==> Step(s, StartProcessing) == s
  {
  }

  /**
   * A click without a drag in the editor is enough to start processing, with
   * a zero-size selection whose container width and height are 0.
   */
  lemma {:induction false} ClickThenStart(s: State, at: Coords)
    requires s.ShowsEditor() && !s.isProcessing
    ensures var t := Run(s, [PointerDown(at), PointerUp, StartProcessing]);
            t.Some? && t.value.isProcessing
            && t.value.selection == Some(Selection(at.x, at.y, 0.0, 0.0, 0.0, 0.0))
  {
    var s1 := Step(s, PointerDown(at));
    var s2 := Step(s1, PointerUp);
    assert [PointerDown(at), PointerUp, StartProcessing][1..] == [PointerUp, StartProcessing];
    assert [PointerUp, StartProcessing][1..] == [StartProcessing];
    assert Run(s2, [StartProcessing]) == Some(Step(s2, StartProcessing));
    assert Run(s1, [PointerUp, StartProcessing]) == Some(Step(s2, StartProcessing));
  }

  /** The recorder's stop publishes the result and ends processing: the result view shows. */
  lemma StopShowsResult(s: State, url: string)
    requires s.Inv() && s.isProcessing
    ensures var t := Step(s, RecorderStopped(url));
            t.processedVideoUrl == Some(url) && !t.isProcessing && t.Inv() && t.CurrentView() == Result
  {
    StepKeepsInv(s, RecorderStopped(url));
  }

  /** Restart returns to the upload view; it drops both URLs but keeps the selection. */
  lemma StartOverShowsUpload(s: State)
    requires s.Inv() && s.ShowsResult()
    ensures var t := Step(s, StartOver);
            t.videoSrc.None? && t.processedVideoUrl.None? && t.selection == s.selection
            && t.Inv() && t.CurrentView() == Upload
  {
    StepKeepsInv(s, StartOver);
  }

  /**
   * The selection restart keeps is never seen: the upload view is left only
   * for an editor with no selection and no result.
   */
  lemma LeavingUploadStartsClean(s: State, e: Event)
    requires s.Inv() && s.ShowsUpload() && Enabled(s, e)
    ensures var t := Step(s, e);
            t.ShowsUpload() || (t.ShowsEditor() && t.selection.None? && t.progress == 0 && !t.isProcessing)
  {
  }
}
