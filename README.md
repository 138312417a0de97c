# AI Video Clean: a verified model of the session logic

The application (src/App.jsx, one React component) lets a user load a video,
drag a rectangle over it, and record a copy in which that rectangle is
blurred. This project models the parts of the component that can be stated
exactly and proves what they promise:

- **Drag rectangle** (module `Geometry`): `handleStart` anchors a zero-size
  selection at the pointer; `handleMove` turns the drag's start point and the
  current point into a rectangle whose origin is the top-left of the two
  points and whose size is their distance, in whichever direction the user
  drags. Positions are what `getCoords` returns, taken as given.
- **Encoder preference resolver** (module `MimeTypes`): `getSupportedMimeType`
  picks the ordered candidate list of the output format (an unknown format
  uses the mp4 list) and returns the first candidate the runtime supports,
  else `video/webm`. `MediaRecorder.isTypeSupported` is a capability oracle
  passed in as a function. The loop is a method proved against the recursive
  function `FirstSupported`.
- **Quality presets** (module `Presets`): the `PRESETS` table from preset
  key to recorder bitrate.
- **Session state** (modules `Session` and `Component`): the component's
  `useState` fields as a value `Session.State`, the handlers as `Session.Event`,
  and `Session.Step`, the state each handler leaves behind (a reducer). The
  class `Component.App` has one field per `useState` hook and one method per
  handler; every method is proved to produce `Step` of the old state and to
  keep the invariant `Session.State.Inv`: a result URL only exists with a
  source video, processing only happens in the editor and always with a
  selection, and a selection never has negative size. From the invariant follows that exactly one of the
  upload, editor and result views is rendered in every reachable state.

React refs are modelled by the view: `containerRef.current` and
`videoRef.current` are non-null exactly while the editor view is rendered,
so the `!containerRef.current` guard of `handleMove` and the
`!videoRef.current` guard of `processVideo` read as "the editor is not shown",
and `handleStart` outside the editor (where `getCoords` would throw before any
setter runs) changes nothing. A handler runs only while its control is
rendered (`Session.Enabled`): the file input in the upload view
(src/App.jsx:187-189); the format and quality selectors and the start button
in the editor while not processing (src/App.jsx:237-303); the clear button
there only with a selection (src/App.jsx:296); the restart button in the
result view (src/App.jsx:309, 324). The recorder's stop handler exists only
while a recording started by `processVideo` runs (`isProcessing`). Pointer
events are bound to the editor's container; the model accepts them in every
view and shows they change nothing outside the editor except clearing the
dragging flag (`Session.PointerOutsideEditor`).

Two things the code does not do:

- A zero-area selection (a click without a drag) is not refused: the guard of
  `processVideo` and the start button's `disabled` test only check that a
  selection exists (src/App.jsx:99, 291). `Session.ClickThenStart` shows a
  click followed by the start button starting processing with a zero-size
  selection whose container size is 0.
- Restart clears the source and the result but not the selection
  (src/App.jsx:324). The stale selection is never shown: the only way out of
  the upload view is a video upload, which clears it
  (`Session.LeavingUploadStartsClean`).

## Model

| member | source | states |
|---|---|---|
| Geometry.Anchored | src/App.jsx:71-77 | the selection a press creates has zero size and contains the press point |
| Geometry.DragRect | src/App.jsx:79-92 | the moved selection's origin is the component-wise minimum of start and current point, its far edge the maximum, its size non-negative, its container size the current bounding box |
| Geometry.DragRectSize | src/App.jsx:82-88 | width and height are the absolute differences of the two points |
| Geometry.DragRectSpansBothPoints | src/App.jsx:84-88 | both points lie in the rectangle and its edges are exactly the two points' coordinates |
| Geometry.DragRectSymmetric | src/App.jsx:82-88 | dragging a to b and b to a give the same rectangle (drag direction does not matter) |
| Geometry.DragRectIsSmallest | src/App.jsx:84-88 | every rectangle covering both points contains the drag rectangle |
| MimeTypes.Preferences | src/App.jsx:45-51 | every format, known or not, has a candidate list of at least two types |
| MimeTypes.FirstSupported | src/App.jsx:52-55 | the answer is the fallback or a supported member of the candidate list |
| MimeTypes.GetSupportedMimeType | src/App.jsx:44-56 | the loop with early return computes the first supported candidate of the format's list, else the fallback |
| MimeTypes.FirstSupportedIsFirst | src/App.jsx:52-54 | a supported candidate with no supported candidate before it is the answer |
| MimeTypes.FirstSupportedFound | src/App.jsx:52-54 | when some candidate is supported the answer is the first supported one |
| MimeTypes.NoneSupportedFallsBack | src/App.jsx:55 | with no supported candidate the answer is `video/webm`, whether or not that is supported |
| MimeTypes.FallbackMayBeUnsupported | src/App.jsx:52-55 | when neither a candidate nor `video/webm` is supported, the answer is `video/webm`, a type the runtime reports it cannot record |
| MimeTypes.TrailingFallbackIsRedundant | src/App.jsx:47-55 | a candidate list ending in `video/webm` resolves like the list without it |
| MimeTypes.FirstSupportedAgree | src/App.jsx:52-55 | oracles agreeing on every candidate give the same answer |
| MimeTypes.UnknownFormatUsesMp4 | src/App.jsx:51 | an unrecognised format resolves exactly as mp4 |
| MimeTypes.WebmSupportIrrelevant | src/App.jsx:47-55 | for webm, mkv and avi the answer does not depend on whether plain `video/webm` is supported |
| MimeTypes.AviFallsBackToWebm | src/App.jsx:49-55 | avi without `video/x-msvideo` support records `video/webm` |
| Presets.Lookup | src/App.jsx:21-28 | a key finds at most the preset stored under that key; unknown keys find nothing |
| Presets.Bitrate | src/App.jsx:21-28 | every bitrate lies between 400000 and 8000000 bits per second |
| Presets.Rank | src/App.jsx:21-28 | each preset has a position in the table's key order |
| Presets.KeysRoundTrip | src/App.jsx:21-28 | looking up a preset's key finds that preset; each preset appears once in the key order |
| Presets.BitrateStrictlyDecreasing | src/App.jsx:21-28 | bitrates strictly decrease from veryslow to ultrafast |
| Presets.SlowerMeansHigherBitrate | src/App.jsx:20-28 | a preset comes earlier in the order exactly when its bitrate is higher |
| Presets.BitrateTable | src/App.jsx:21-28 | each key's bitrate is the table value, e.g. fast is 1500000 |
| Session.State.CurrentView | src/App.jsx:187-309 | under the invariant exactly one of the upload, editor and result conditions holds |
| Session.Initial | src/App.jsx:5-13 | the initial state satisfies the invariant and shows the upload view with no selection |
| Session.IsVideoType | src/App.jsx:33 | a file type is a video type exactly when its first six characters are `video/` |
| Session.Enabled | src/App.jsx:187-324 | in a state satisfying the invariant, a file can be chosen only in the upload view, restart only in the result view, the selectors, clear and start buttons only in the editor while not processing, and the recorder stops only in the editor with a selection |
| Session.Step | src/App.jsx:31-140 | only an upload or a restart changes the source; only the recorder's stop publishes a result; only the start button starts processing, and only with a selection; only a press or a move sets a selection, never of negative size |
| Session.RecorderSettings | src/App.jsx:121-129 | the recorder's MIME type is the fallback or a supported candidate of the chosen format, and its bitrate is the table value of the preset's key |
| Session.StepKeepsInv | src/App.jsx:31-140 | every handler keeps the invariant |
| Session.RunKeepsInv | src/App.jsx:31-140 | every sequence of handlers keeps the invariant |
| Session.ReachableShowsOneView | src/App.jsx:187-309 | in every reachable state exactly one view is rendered |
| Session.PointerOutsideEditor | src/App.jsx:71-94 | outside the editor a press or move changes nothing and a release only clears the dragging flag |
| Session.MoveIgnoredUnlessDragging | src/App.jsx:80 | a move changes nothing unless a drag is in progress |
| Session.MoveWhileDragging | src/App.jsx:79-92 | a move during a drag sets the selection to origin min and size abs of the two points and changes nothing else |
| Session.PressStartsDrag | src/App.jsx:71-77 | a press changes nothing while processing; otherwise it sets the start point, the dragging flag and a zero-size selection there, and nothing else |
| Session.ReleaseKeepsSelection | src/App.jsx:94 | release only clears the dragging flag and keeps the selection |
| Session.ClearDropsSelection | src/App.jsx:95 | clearing only drops the selection and stays in the editor |
| Session.DragGesture | src/App.jsx:71-94 | a press, move and release in the editor leave the rectangle spanned by the two points and no drag in progress |
| Session.NonVideoRejected | src/App.jsx:31-41 | in the upload view a missing or non-video file leaves the state unchanged |
| Session.VideoStartsFreshSession | src/App.jsx:31-38 | in the upload view a video file sets the source and clears result, selection and progress, showing the editor |
| Session.StartNeedsSelection | src/App.jsx:98-102 | in the editor, processing starts exactly when a selection exists, setting only the processing flag and progress 0; otherwise nothing changes |
| Session.ClickThenStart | src/App.jsx:71-102 | a click without a drag is enough to start processing, with a zero-size selection |
| Session.StopShowsResult | src/App.jsx:133-137 | the recorder's stop publishes the result URL, ends processing and shows the result view |
| Session.StartOverShowsUpload | src/App.jsx:324 | restart shows the upload view, dropping both URLs and keeping the selection |
| Session.LeavingUploadStartsClean | src/App.jsx:31-42 | from the upload view every handler stays there or reaches an editor with no selection, progress 0 and no processing |
| Component.App.constructor | src/App.jsx:5-13 | the fields start at the useState initial values |
| Component.App.HandleFileUpload | src/App.jsx:31-42 | called from the upload view; new state is the upload step; the alert is shown exactly for a missing or non-video file |
| Component.App.HandleStart | src/App.jsx:71-77 | new state is the press step; invariant kept |
| Component.App.HandleMove | src/App.jsx:79-92 | new state is the move step; invariant kept |
| Component.App.HandleEnd | src/App.jsx:94 | new state is the release step; invariant kept |
| Component.App.ResetSelection | src/App.jsx:95 | new state is the clear step; invariant kept |
| Component.App.SetOutputFormat | src/App.jsx:256-258 | only the output format changes |
| Component.App.SetQualityPreset | src/App.jsx:273-275 | only the quality preset changes |
| Component.App.ProcessVideo | src/App.jsx:98-129 | new state is the start step; the recorder is requested exactly when the guard passes, with the resolved MIME type and the preset's bitrate (whether the runtime accepts that type is not modelled) |
| Component.App.OnRecorderStop | src/App.jsx:133-140 | new state is the stop step: result URL set, processing ended |
| Component.App.Restart | src/App.jsx:324 | new state is the restart step; invariant kept |

## Left out

- Frame compositing in `drawFrame` (drawImage, clip, blur filter): browser drawing calls with nothing to state.
- `MediaRecorder`, `captureStream`, `Blob` and `URL.createObjectURL`: platform I/O and encoding. The object URLs they produce are parameters of the upload and stop handlers; the recorder's configuration is what `ProcessVideo` returns.
- Rescaling the selection by `videoWidth / containerW` and the progress value `Math.round(currentTime / duration * 100)`: floating-point arithmetic (the divisor can be 0 after a click without a drag). The model therefore never sets `progress` to anything but 0.
- The `requestAnimationFrame` loop, `await video.play()`, and the `currentTime` reset and `pause()` in the stop handler: timing and playback.
- Component.App.ProcessVideo: models only the synchronous part; the recording that follows is the separate `OnRecorderStop` event.
- Component.App.ProcessVideo: does not model `new MediaRecorder` (line 126) throwing for a type the runtime cannot record, nor a rejected `video.play()` (line 144). Both happen after `isProcessing` is set, so the source then stays in the processing editor with no control left to end it, while the model still lets the recorder's stop arrive. `MimeTypes.FallbackMayBeUnsupported` shows the resolver can hand over such a type: `video/webm` is returned without asking the runtime.
- Component.App.HandleFileUpload: the alert's text is not modelled, only whether it is shown.
- The download file name `cleaned_<time>.<format>` (line 319) and the clock it reads; its extension can differ from the recorded type, as `MimeTypes.AviFallsBackToWebm` shows for avi.
- Positions are exact reals: JavaScript's floating-point rounding in `getCoords` and in the subtraction of `handleMove` is not modelled.
- The quality preset is one of the six table keys (the selector offers only those), so the failing lookup `PRESETS[key]` for other keys cannot arise; `Presets.Lookup` still shows it finds nothing.
- Format names that are also members of a JavaScript object's prototype (such as `constructor`) are treated as unknown formats; the selector offers only the four known ones.
- `processVideo` does not test `isProcessing` itself; the model, like the source, relies on its button being hidden during processing.
- The start button's `disabled={!selection}` is not part of `Session.Enabled`, so the model also lets `processVideo` run without a selection and proves its guard then changes nothing.
- JSX markup and styling beyond the three view conditions, and the build configuration in vite.config.js.
