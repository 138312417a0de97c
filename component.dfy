/**
 * The App component of src/App.jsx as an object: one field per useState
 * hook, one method per handler. Each handler is proved to leave the state
 * Session.Step prescribes and to keep Session's invariant.
 */
module Component {
  import opened Wrappers
  import opened Geometry
  import opened MimeTypes
  import opened Presets
  import opened Session

  class App {
    var videoSrc: Option<string>
    var isProcessing: bool
    var progress: int
    var processedVideoUrl: Option<string>
    var selection: Option<Selection>
    var outputFormat: string
    var qualityPreset: Preset
    var isDragging: bool
    var startPos: Point

    /** The fields as a Session.State. */
    function Snapshot(): State
      reads this
    {
      State(videoSrc, isProcessing, progress, processedVideoUrl, selection,
            outputFormat, qualityPreset, isDragging, startPos)
    }

    ghost predicate Valid()
      reads this
    {
      Snapshot().Inv()
    }

    /** The component's first render: the useState initial values. */
    constructor ()
      ensures Valid() && Snapshot() == Initial()
    {
      videoSrc, isProcessing, progress, processedVideoUrl := None, false, 0, None;
      selection, outputFormat, qualityPreset := None, "mp4", Normal;
      isDragging, startPos := false, Point(0.0, 0.0);
    }

    /** handleFileUpload; `alerted` is the alert shown for a missing or non-video file. */
    method HandleFileUpload(fileType: Option<string>, url: string) returns (alerted: bool)
      requires Valid() && Enabled(Snapshot(), FileChosen(fileType, url))
      modifies this
      ensures Valid() && Snapshot() == Step(old(Snapshot()), FileChosen(fileType, url))
      ensures alerted == UploadRejected(fileType)
    {
      if fileType.Some? && "video/" <= fileType.value {
        videoSrc := Some(url);
        processedVideoUrl := None;
        selection := None;
        progress := 0;
        alerted := false;
      } else {
        alerted := true;
      }
    }

    /** handleStart */
    method HandleStart(at: Coords)
      requires Valid()
      modifies this
      ensures Valid() && Snapshot() == Step(old(Snapshot()), PointerDown(at))
    {
      if isProcessing {
        return;
      }
      if videoSrc.None? || processedVideoUrl.Some? {
        // getCoords on an unmounted container throws here
        return;
      }
      startPos := Point(at.x, at.y);
      isDragging := true;
      selection := Some(Selection(at.x, at.y, 0.0, 0.0, 0.0, 0.0));
    }

    /** handleMove */
    method HandleMove(at: Coords)
      requires Valid()
      modifies this
      ensures Valid() && Snapshot() == Step(old(Snapshot()), PointerMove(at))
    {
      if !isDragging || videoSrc.None? || processedVideoUrl.Some? {
        return;
      }
      var w := at.x - startPos.x;
      var h := at.y - startPos.y;
      selection := Some(Selection(
        if w > 0.0 then startPos.x else at.x,
        if h > 0.0 then startPos.y else at.y,
        Abs(w), Abs(h), at.width, at.height));
    }

    /** handleEnd */
    method HandleEnd()
      requires Valid()
      modifies this
      ensures Valid() && Snapshot() == Step(old(Snapshot()), PointerUp)
    {
      isDragging := false;
    }

    /** resetSelection */
    method ResetSelection()
      requires Valid() && Enabled(Snapshot(), ClearSelection)
      modifies this
      ensures Valid() && Snapshot() == Step(old(Snapshot()), ClearSelection)
    {
      selection := None;
    }

    /** The format selector's onChange. */
    method SetOutputFormat(format: string)
      requires Valid() && Enabled(Snapshot(), FormatChosen(format))
      modifies this
      ensures Valid() && Snapshot() == Step(old(Snapshot()), FormatChosen(format))
    {
      outputFormat := format;
    }

    /** The quality selector's onChange. */
    method SetQualityPreset(preset: Preset)
      requires Valid() && Enabled(Snapshot(), PresetChosen(preset))
      modifies this
      ensures Valid() && Snapshot() == Step(old(Snapshot()), PresetChosen(preset))
    {
      qualityPreset := preset;
    }

    /**
     * processVideo up to the start of the recorder: the guard, the state it
     * sets, and the MIME type and bitrate the recorder is created with
     * (None: the guard returned early).
     */
    method ProcessVideo(isTypeSupported: string -> bool) returns (recorder: Option<RecorderConfig>)
      requires Valid() && Enabled(Snapshot(), StartProcessing)
      modifies this
      ensures Valid() && Snapshot() == Step(old(Snapshot()), StartProcessing)
      ensures recorder.Some? <==> old(Snapshot()).ShowsEditor() && old(selection).Some?
      ensures recorder.Some? ==> recorder.value == RecorderSettings(old(Snapshot()), isTypeSupported)
    {
      if videoSrc.None? || processedVideoUrl.Some? || selection.None? {
        // no mounted video element, or no selection
        return None;
      }
      isProcessing := true;
      progress := 0;
      var mimeType := GetSupportedMimeType(outputFormat, isTypeSupported);
      var targetBitrate := Bitrate(qualityPreset);
      recorder := Some(RecorderConfig(mimeType, targetBitrate));
    }

    /** mediaRecorder.onstop, given the URL of the finished recording. */
    method OnRecorderStop(url: string)
      requires Valid() && Enabled(Snapshot(), RecorderStopped(url))
      modifies this
      ensures Valid() && Snapshot() == Step(old(Snapshot()), RecorderStopped(url))
    {
      processedVideoUrl := Some(url);
      isProcessing := false;
    }

    /** The result view's restart button. */
    method Restart()
      requires Valid() && Enabled(Snapshot(), StartOver)
      modifies this
      ensures Valid() && Snapshot() == Step(old(Snapshot()), StartOver)
    {
      processedVideoUrl := None;
      videoSrc := None;
    }
  }
}
