# Digital dress code: a Dafny model of the video pipeline

The "digital dress code" page shows the camera image of an employee with the background
replaced, and the employee's card drawn on top. A segmenter (MediaPipe Selfie Segmentation, or a
fixed geometric mask when MediaPipe is unavailable or fails) gives a person mask for each frame.
The video processor paces a 60 fps frame loop, segments each due frame, prepares the
background, and blends camera and background pixel by pixel. The loop also has a branch that
skips a frame and one that redraws the cached mask, but its skip counter is never changed from 0,
so as written every due frame is segmented afresh. The
background can be solid green, one of seven pictures (each with a gradient fallback), the blurred
camera, or a looping video. The background manager preloads the pictures and the video. The
employee display filters the profile by a privacy level, lays it out as lines of text on the
canvas, and shows it as blocks in the page preview.

The project has one module per concern:

- `Base`: the shared types.
- `Colors`: `lightenColor`, including its hexadecimal parse and format.
- `Compositor`: the pixel loop of `fastApplySegmentation`, over arrays.
- `Geometry`: the "cover" fit used to draw pictures and video.
- `Segmentation`: the `Segmentator` class.
- `BackgroundManagement`: the `BackgroundManager` class and the video preload promise.
- `VideoProcessing`: the `VideoProcessor` class and what each frame draws.
- `Employee`: the `EmployeeDisplay` class, the privacy filter and the card layout.

Objects whose fields the JavaScript updates are classes with those fields. Their event handlers
(image `onload`, the camera's `loadeddata`, timers, preload listeners, the model's `onResults`)
are methods. Browser facts such as ready states, sizes, `getUserMedia`'s outcome and clock
readings are passed in as parameters. What a frame or the card draws is described by values:
`BackgroundDraw`, `Frame` and `Drawing`.

## Model

| member | source | states |
|---|---|---|
| Colors.LightenColor | js/background-manager.js:103-110 | a `#rrggbb` colour becomes a lower-case `#rrggbb` colour whose every channel is the old channel plus the amount, clamped at 255, and never darker |
| Colors.LightenColorByZero | js/video-processor.js:531-538 | lightening by 0 returns the colour itself in lower case, so parsing and re-formatting lose nothing |
| Colors.ToBase16Padded | js/background-manager.js:109 | `(16^k + v).toString(16)` is "1" followed by `v` zero-padded to `k` digits, so dropping the first digit pads each channel to two digits |
| Colors.ParseFixedHex | js/background-manager.js:104-109 | formatting a value to `k` hex digits and parsing it back gives the value |
| Colors.FixedHexParse | js/background-manager.js:104-109 | parsing `k` hex digits and formatting back to `k` digits gives the digits, lower-cased |
| Compositor.SoftBlend | js/video-processor.js:324-327 | the soft-edge mix, rounded as a clamped byte array rounds, lies between the camera value and the background value |
| Compositor.BlendChannel | js/video-processor.js:316-335 | a mask above 200 gives the camera value, a mask at most 100 gives the background value, and every value lies between the two |
| Compositor.FastApplySegmentation | js/video-processor.js:313-337 | every output byte is the blend of its pixel by the mask's red byte, alpha bytes are 255, `whitePixels` counts pixels with a mask above 100 and `blackPixels` counts the rest |
| Compositor.CountsCoverAllPixels | js/video-processor.js:313-337 | every pixel is counted exactly once: white plus black is the number of pixels |
| Compositor.ForegroundIsCardinality | js/video-processor.js:316-328 | `whitePixels` is the size of the set of pixels whose mask value is above 100 |
| Compositor.CompositedPixel | js/video-processor.js:316-336 | each colour byte of a pixel is the camera byte, the background byte or a value between them, according to the mask, and the pixel is opaque |
| Geometry.CoverFit | js/video-processor.js:399-414 | the drawn rectangle keeps the picture's aspect ratio, covers the canvas, fits it exactly in one dimension, and is centred |
| Geometry.VideoDimension | js/video-processor.js:458-459 | a reported size of 0 counts as the default; any other size is kept |
| Segmentation.PersonRect | js/segmentator.js:115-119 | the fallback person is 60% by 70% of the canvas, centred, and strictly inside it |
| Segmentation.UltraFastFallbackSegmentation | js/segmentator.js:92-131 | a fallback result on a 64 x 48 mask whose centred white rectangle covers 42% of the pixels, timed by the draw |
| Segmentation.Segmentator.constructor | js/segmentator.js:2-11 | no model, not loaded, no results, quality "fast" |
| Segmentation.Segmentator.CreateFallbackModel | js/segmentator.js:54-58 | marks the segmenter loaded and switches it to the fallback; nothing else changes |
| Segmentation.Segmentator.LoadModel | js/segmentator.js:13-52 | always resolves true and loaded; any failure (library missing, constructor or setup throwing) switches to the fallback for good |
| Segmentation.Segmentator.OnResults | js/segmentator.js:37-40 | the results are stored and the frame is no longer in flight |
| Segmentation.Segmentator.SegmentFrame | js/segmentator.js:60-89 | returns the cached results while not loaded or busy; in fallback mode, the fallback mask without calling the model; nothing for a video that is not ready; otherwise one model call, with the fallback mask for that frame when the call rejects |
| Segmentation.Segmentator.SetQuality | js/segmentator.js:133-136 | whatever is asked for, the quality becomes "ultra-fast" |
| Segmentation.TransientFailureScenario | js/segmentator.js:73-88 | a rejected model call does not switch to the fallback: the next frame goes to the model again |
| BackgroundManagement.FallbackColorsWellFormed | js/background-manager.js:84-92 | the fallback colours cover exactly the seven picture keys and are all `#rrggbb` colours |
| BackgroundManagement.FallbackImage | js/background-manager.js:78-101 | a complete 1920 x 1080 gradient from the picture's colour to that colour lightened by 77 (`lightenColor(color, 30)`) |
| BackgroundManagement.Settle | js/background-manager.js:126-181 | a promise settles once: a second resolution changes nothing |
| BackgroundManagement.Deliver | js/background-manager.js:143-172 | `loadeddata` and `canplay` set `videoLoaded`, clear the timer and resolve true; `error` clears the timer and resolves false; the timer, unless cleared, removes the `loadeddata` and `error` listeners and resolves false |
| BackgroundManagement.SettledPreloadKeepsResult | js/background-manager.js:143-172 | once a preload has settled, no later event changes its result |
| BackgroundManagement.ResolvedTrueSetsVideoLoaded | js/background-manager.js:150-169 | a preload that resolved true did so in a handler that set `videoLoaded` |
| BackgroundManagement.TimeoutFirstResolvesFalse | js/background-manager.js:143-148 | when the 5 s timer fires first, the preload resolves false |
| BackgroundManagement.CanPlayListenerFires | js/background-manager.js:163-172 | while the `canplay` listener is attached, a later `canplay` sets `videoLoaded` |
| BackgroundManagement.LateCanPlayAfterTimeout | js/background-manager.js:143-172 | the timer leaves the `canplay` listener attached: a preload that timed out resolved false, yet a later `canplay` still sets `videoLoaded` |
| BackgroundManagement.BackgroundManager.constructor | js/background-manager.js:2-35 | no pictures yet, all seven pending, and a video element: the page's own, or a fresh one |
| BackgroundManagement.BackgroundManager.OnImageLoad | js/background-manager.js:53-62 | the picture is stored, counted once, and `imagesLoaded` becomes true exactly when all seven have completed |
| BackgroundManagement.BackgroundManager.OnImageError | js/background-manager.js:64-72 | a failed picture is counted like a loaded one, and its gradient replacement is started |
| BackgroundManagement.BackgroundManager.OnFallbackImageLoad | js/background-manager.js:96-100 | the gradient picture is stored under its key without counting the picture again |
| BackgroundManagement.BackgroundManager.GetBackgroundImage | js/background-manager.js:112-114 | the stored picture for the key, or none when there is none |
| BackgroundManagement.BackgroundManager.IsImageLoaded | js/background-manager.js:116-119 | a picture counts as loaded exactly when the stored picture is complete and has a width |
| BackgroundManagement.BackgroundManager.IsVideoLoaded | js/background-manager.js:183-185 | a video counted as loaded has an element with a current frame; a preload of a video that can play makes it true, and a reload makes it false |
| BackgroundManagement.BackgroundManager.ReloadVideo | js/background-manager.js:188-193 | after a reload the video is not loaded |
| BackgroundManagement.BackgroundManager.PreloadVideo | js/background-manager.js:126-141 | no element resolves false; an element that can play sets `videoLoaded` and resolves true; otherwise all listeners and the timer wait, and the element restarts |
| BackgroundManagement.BackgroundManager.OnPreloadEvent | js/background-manager.js:150-169 | an event reaching a waiting preload moves it as `Deliver` says, and sets `videoLoaded` when a handler does |
| BackgroundManagement.LoadAllScenario | js/background-manager.js:48-76 | whatever mix of loads and errors the seven pictures end with, the manager then reports all pictures loaded |
| VideoProcessing.FallbackColor | js/video-processor.js:499-505 | a picture's colour, or green for an unknown key; always a `#rrggbb` colour |
| VideoProcessing.FallbackBackground | js/video-processor.js:498-511 | a gradient from the fallback colour to that colour lightened by 77 (`lightenColor(baseColor, 30)`), a lower-case colour no darker in any channel |
| VideoProcessing.CoverFitCovers | js/video-processor.js:399-414 | the cover fit's rectangle covers the whole canvas |
| VideoProcessing.PictureExactlyWhenLoaded | js/video-processor.js:394-425 | in a picture mode the picture itself is drawn exactly when the manager reports it loaded, and the fallback gradient otherwise |
| VideoProcessing.ImageBackground | js/video-processor.js:394-425 | a picture is drawn exactly when it is complete with a width; it then covers the canvas in its own proportions; otherwise the fallback gradient is drawn |
| VideoProcessing.VideoBackground | js/video-processor.js:427-487 | the placeholder exactly when there is no element or no frame; otherwise the frame covers the canvas in the video's proportions, with an unknown size counting as 640 x 480 |
| VideoProcessing.PlanBackground | js/video-processor.js:370-392 | the mode decides the drawing: picture modes give a picture or gradient, "blur" the blurred camera, "video" the video or placeholder, and everything else solid green |
| VideoProcessing.FrameFor | js/video-processor.js:238-242 | with a mask, the composite over the prepared background; without one, the plain camera frame; the card is drawn when there is a display |
| VideoProcessing.CameraErrorHint | js/video-processor.js:144-154 | "NotAllowedError" asks to allow access, "NotFoundError" says there is no camera, and nothing else gets a hint |
| VideoProcessing.VideoProcessor.constructor | js/video-processor.js:2-49 | green background, "high" quality at 60 fps, nothing running, no mask, fresh 300 x 150 work canvases, and a background manager with a video element |
| VideoProcessing.VideoProcessor.SetEmployeeDisplay | js/video-processor.js:51-53 | the display is attached |
| VideoProcessing.VideoProcessor.SetSegmentator | js/video-processor.js:55-57 | the segmenter is attached |
| VideoProcessing.VideoProcessor.ResizeCanvases | js/video-processor.js:102-122 | output and work canvases get the frame size; the debug canvases get half of it |
| VideoProcessing.VideoProcessor.SetCanvasSizes | js/video-processor.js:102-122 | every canvas is sized for the camera, with an unknown size counting as 640 x 480 |
| VideoProcessing.VideoProcessor.SetDefaultCanvasSizes | js/video-processor.js:124-142 | every canvas is sized for 640 x 480 |
| VideoProcessing.VideoProcessor.StartCamera | js/video-processor.js:59-100 | a refused camera gives false and the hint shown to the user, with the state untouched; a granted one keeps the stream and waits for the first frame or for 2 s |
| VideoProcessing.VideoProcessor.OnCameraLoadedDataAsWritten | js/video-processor.js:76-84 | the canvases take the camera's size, the listener is removed, and the timer stays armed |
| VideoProcessing.VideoProcessor.OnCameraLoadedData | js/video-processor.js:77-81 | the canvases take the camera's size, and the wait ends with the timer disarmed |
| VideoProcessing.VideoProcessor.OnCameraTimer | js/video-processor.js:85-89 | the wait ends and the canvases get 640 x 480 |
| VideoProcessing.VideoProcessor.StopCamera | js/video-processor.js:156-170 | the stream is gone, processing stops, the cached mask is dropped, and the background video is paused and rewound |
| VideoProcessing.VideoProcessor.StartProcessing | js/video-processor.js:172-185 | without a segmenter nothing starts; otherwise processing runs from the given time |
| VideoProcessing.VideoProcessor.StopProcessing | js/video-processor.js:577-580 | processing stops and the cached mask is dropped |
| VideoProcessing.VideoProcessor.ForceUpdate | js/video-processor.js:364-368 | the next frame is segmented afresh whatever the pacing says |
| VideoProcessing.VideoProcessor.UpdatePerformanceStats | js/video-processor.js:563-575 | the counters become `StatsAfter`: a frame is counted; once a second has passed, `fps` becomes the number of frames in that second, the shown processing time the latest one, and a new window starts; the frame counter always counts the current window's frames |
| VideoProcessing.VideoProcessor.PrepareBackground | js/video-processor.js:370-392 | draws the plan for the current mode; in video mode a preload starts exactly when there is no frame yet, and `play()` is asked for when the video is paused and not known to play; `videoLoaded` is left as it was |
| VideoProcessing.VideoProcessor.OnBackgroundPlayStarted | js/video-processor.js:448-450 | the video is playing |
| VideoProcessing.VideoProcessor.ProcessFrame | js/video-processor.js:199-252 | ends when not processing and retries too early frames after the rest of the 1/60 s, changing nothing else; every due frame is drawn from a fresh segmentation, the segmenter left as its `segmentFrame` leaves it, the new mask cached, and the counters as `updatePerformanceStats` leaves them; the skip and cached-mask branches are unreachable because the skip counter stays 0; a frame that throws draws the plain camera image |
| VideoProcessing.VideoProcessor.ProcessDueFrame | js/video-processor.js:215-251 | a due frame is always drawn: from the segmenter's fresh result (with the segmenter's, cache's, counters' and video's state afterwards), or the plain camera frame when the segmenter is missing; the skip branch is proved dead |
| VideoProcessing.VideoProcessor.ObtainResult | js/video-processor.js:224-236 | a fresh segmentation, caching its mask, ending a forced redraw and leaving the segmenter as `segmentFrame` does; nothing, with the cache untouched, when the segmenter is missing; the cached-mask branch is proved dead |
| VideoProcessing.VideoProcessor.DrawResult | js/video-processor.js:238-242 | the frame drawn for the result, with the background prepared only when there is a mask; the video's ready state drops to 0 exactly when that preparation restarts the video, and `videoLoaded` is unchanged |
| VideoProcessing.VideoProcessor.DrawAndCount | js/video-processor.js:238-244 | the frame drawn for a fresh result, followed by the counters as `updatePerformanceStats` leaves them |
| VideoProcessing.VideoProcessor.SetBackground | js/video-processor.js:582-606 | switching to the video starts a preload exactly when it is not loaded, with the preload's outcome; switching away from a playing video pauses it, and otherwise the playing and paused state stay; the video's position never changes |
| VideoProcessing.VideoProcessor.SetQuality | js/video-processor.js:608-617 | whatever is asked for: "high" at 60 fps, and the segmenter goes "ultra-fast" with the rest of its state unchanged |
| VideoProcessing.CameraSizeLostAsWritten | js/video-processor.js:76-90 | as written, a 1280 x 720 camera ends up with 640 x 480 canvases once the uncleared timer fires |
| VideoProcessing.CameraSizeKept | js/video-processor.js:76-90 | with the timer cleared, a 1280 x 720 camera keeps 1280 x 720 canvases |
| Employee.DisplayData | js/employee-display.js:149-176 | name and position are always kept; "low" and "medium" drop contacts, branding and the level field; any other level keeps the whole record |
| Employee.DisplayDataIsProjection | js/employee-display.js:149-176 | the filtered record has exactly the record's fields that the level allows, each with the record's value |
| Employee.LevelsAreNested | js/employee-display.js:155-175 | "medium" shows at least what "low" shows, and "high" at least what "medium" shows |
| Employee.CalculateHeight | js/employee-display.js:254-267 | 20 px per line plus 20: between 60 and 180, in steps of 20 |
| Employee.HeightMatchesLayout | js/employee-display.js:254-267 | the height fits exactly the lines drawn, except at "high" with no contacts, where it also counts two contact lines and the slogan that are not drawn |
| Employee.GetTextColors | js/employee-display.js:240-252 | white text exactly for "light"; black text for anything else |
| Employee.TextColorsAreColors | js/employee-display.js:240-252 | the text colour is a `#rrggbb` colour with every channel at 255 for "light" and 0 otherwise |
| Employee.CardLines | js/employee-display.js:194-236 | between 2 and 8 lines, the name first and the position second |
| Employee.CardLinesShow | js/employee-display.js:194-236 | the card shows name and position, each workplace field exactly when it is truthy, the e-mail and Telegram lines exactly when contacts are shown, and the slogan exactly when contacts are shown and there is one |
| Employee.CardLinesOrder | js/employee-display.js:194-236 | the name, position and workplace lines come first, unchanged by the level, and every line after them is a contact or slogan line |
| Employee.LayoutAt | js/employee-display.js:194-236 | line `i` of the card is drawn at the y its position gives |
| Employee.LayoutSpacing | js/employee-display.js:194-236 | the first line is at y = 20, the second 25 px below it, each further one 20 px lower; strictly top to bottom |
| Employee.PrivateLinesOnlyAtHigh | js/employee-display.js:224-236 | contact and slogan lines appear only at "high", and at "high" a record with contacts shows its e-mail line |
| Employee.PreviewBlocks | js/employee-display.js:104-147 | name and position blocks first; the contacts and branding blocks only at "high"; at "high" a record with contacts shows them |
| Employee.DrawHeadLines | js/employee-display.js:194-222 | the name, position and workplace lines are drawn as the card layout places them, and `currentY` ends below the last |
| Employee.DrawContactLines | js/employee-display.js:224-236 | adding the contact and slogan lines completes the card layout |
| Employee.EmployeeDisplay.constructor | js/employee-display.js:2-7 | level "low", text colour "dark", and the record `loadEmployeeData` picks from the page's storage |
| Employee.EmployeeDisplay.GetDisplayData | js/employee-display.js:149-176 | the record is reloaded through `loadEmployeeData`, kept, and filtered by the current level |
| Employee.EmployeeDisplay.UpdateDisplay | js/employee-display.js:104-147 | nothing without the preview element; otherwise the preview blocks of the filtered record |
| Employee.EmployeeDisplay.SetPrivacyLevel | js/employee-display.js:75-88 | the level is kept as given; with a preview element the record is reloaded and the preview rebuilt for the level, and without one the record is kept |
| Employee.EmployeeDisplay.SetTextColor | js/employee-display.js:90-102 | the text colour is kept as given |
| Employee.EmployeeDisplay.DrawOnCanvas | js/employee-display.js:178-238 | nothing without a context; otherwise the card lines of the filtered record, laid out top to bottom in the text colour |

## Left out

- Pixels of the canvas. `drawImage`, `filter = 'blur(8px)'`, the gradients' colour stops, `fillText`, fonts and the preview's HTML are described by the values `BackgroundDraw`, `Frame`, `Block` and `Drawing`, not rendered. `Compositor` models only the blend loop that works on `ImageData` bytes.
- Numbers are modelled exactly. Canvas and cover-fit arithmetic uses exact reals, not IEEE doubles. Clock readings are reals in milliseconds. `Math.round(2.55 * 30)` appears as its value, 77.
- The browser and its libraries become parameters or abstract outcomes: `getUserMedia` is a `CameraOutcome`, MediaPipe's constructor is a `LoadOutcome`, `model.send` is a `SendOutcome`, and media ready states and sizes are given.
- Durations are whole milliseconds. `processingTime`, `drawTime` and the shown processing time are `nat`, while the source's are fractional differences of `performance.now()` readings, shown with one decimal.
- `localStorage` and the profile editor appear only as the fields of the `Storage` value that `LoadEmployeeData` reads and the class's methods receive. JSON parsing appears as the `Saved` outcome.
- Employee.LoadEmployeeData: its contract is only its order of precedence (editor, then a saved record that parses, then the built-in profile), which is all the source defines; the class's methods state their record as `LoadEmployeeData` of the storage they are given.
- `requestAnimationFrame` and `setTimeout` are not modelled: each call of `processFrame` is one method call. Promise scheduling (`async`/`await`) is not modelled; the model's callback runs within `send`.
- Console logging is not modelled.
- Debug output is not modelled: `updateDebugCanvas`, `updateDebugInfo`, and the text of the FPS and time elements are outside the model. Only `fps` and the shown processing time are kept.
- `showCameraError` builds a DOM message. Only the hint it chooses is modelled, as `CameraErrorHint`.
- `drawBlurBackground` and `drawFallbackVideoBackground` appear only as the `BlurredCamera` and `VideoPlaceholder` drawings. The placeholder's animation depends on the clock and is not modelled.
- `waitForVideoReady`, which `startProcessing` awaits, is not modelled: it only delays the start by at most 1 s, and `StartProcessing` begins at once. Each frame's ready-state check is the one in `segmentFrame` (js/segmentator.js:69), which receives the camera's ready state as a parameter.
- `setupVideoElement`'s element attributes (loop, muted, source path) are not modelled. Only whether an element exists, and its state, are.
- `init` and `setupEventListeners` are not modelled. They wire buttons to `setPrivacyLevel` and `setTextColor`, which are modelled.
- The buttons' `active` classes are not modelled.
- `getCurrentPrivacyLevel` and `getCurrentTextColor` are plain getters of fields the class exposes.
- The `x`, `y`, `width` and `height` arguments of `drawOnCanvas` are not modelled; the source does not use them. Neither is the fixed x offset of the text.
- The branding record's logo and colours are not modelled. The card shows only the slogan.
- Employee.CalculateHeight: the only call to it in the source is commented out. At "high" with no contacts it counts lines that are not drawn, as `HeightMatchesLayout` states. The source's comments give no intended behaviour, so this is recorded as a property, not as a finding.
- BackgroundManagement.BackgroundManager.PreloadVideo: the listeners removing one another is modelled through `Deliver` as one-shot flags. `removeEventListener` on the real element is not modelled.
- The MediaPipe library and the page's other scripts (js/app.js, js/employee-editor.js and js/employee-data.js) are not part of this model.

## Findings

| source | as written | input that shows it | evidently intended | confidence | as-written member | corrected member |
|---|---|---|---|---|---|---|
| js/video-processor.js:76-90 | the `loadeddata` handler sizes the canvases to the camera but never clears the 2 s timer, which then resizes them to 640 x 480 | a 1280 x 720 camera whose first frame arrives within 2 s | clear the timer once the first frame has sized the canvases, so that the camera's size stays | not executed | VideoProcessing.CameraSizeLostAsWritten | VideoProcessing.CameraSizeKept |
