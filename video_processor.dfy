/** The video processor: it owns the camera stream, the output canvas and
    its work canvases, paces the frame loop at 60 frames per second, asks
    the segmenter for a person mask, and composites the camera frame over
    the chosen background (a solid green, one of the seven pictures, the
    blurred camera image or the background video). Pixel work is in module
    Compositor; what a frame draws is described here by values. */
module VideoProcessing {
  import opened Base
  import opened Geometry
  import Colors
  import Seg = Segmentation
  import opened BackgroundManagement

  /** The solid background, and the base of a missing picture's gradient. */
  const GreenScreen: string := "#00ff00"
  const DefaultWidth: nat := 640
  const DefaultHeight: nat := 480
  /** Size of a freshly created canvas element. */
  const FreshCanvasWidth: nat := 300
  const FreshCanvasHeight: nat := 150

  /** `background.startsWith('image')`. */
  predicate IsImageMode(background: string) {
    |background| >= 5 && background[..5] == "image"
  }

  /** None of the named modes is a picture mode. */
  lemma NamedModesAreNotPictures()
    ensures !IsImageMode("green") && !IsImageMode("blur") && !IsImageMode("video")
  {
    assert "green"[0] != 'i' && "blur"[0] != 'i' && "video"[0] != 'i';
  }

  /** `colors[backgroundType] || '#00ff00'`. */
  function FallbackColor(key: string): (c: string)
    ensures Colors.IsHexColor(c)
    ensures key in FallbackColors ==> c == FallbackColors[key]
    ensures key !in FallbackColors ==> c == GreenScreen
  {
    FallbackColorsWellFormed();
    assert Colors.IsHexColor(GreenScreen);
    if key in FallbackColors then FallbackColors[key] else GreenScreen
  }

  /** What `prepareBackground` draws onto the background canvas. */
  datatype BackgroundDraw =
    | Solid(color: string)
    /** A picture scaled into `area`. */
    | Picture(content: ImageContent, area: Rect)
    /** A diagonal gradient between two colours. */
    | ColorGradient(from: string, to: string)
    /** The camera frame, blurred by 8 px. */
    | BlurredCamera
    /** The current background video frame scaled into `area`. */
    | VideoFrame(area: Rect)
    /** The animated "Video Loading..." placeholder. */
    | VideoPlaceholder

  /** `area` covers the whole `width` x `height` canvas. */
  predicate Covers(area: Rect, width: real, height: real) {
    area.x <= 0.0 && area.y <= 0.0 && area.x + area.width >= width && area.y + area.height >= height
  }

  /** `drawFallbackBackground(key)`: a gradient from the picture's colour to
      that colour lightened by 30 percent of 255, that is by 77. */
  function FallbackBackground(key: string): (d: BackgroundDraw)
    ensures d.ColorGradient? && d.from == FallbackColor(key)
    ensures d.to == Colors.LightenColor(d.from, GradientLighten)
    ensures Colors.IsLowerHexColor(d.to)
    ensures forall i :: 0 <= i < 3 ==> Colors.Channel(d.from, i) <= Colors.Channel(d.to, i)
  {
    var base := FallbackColor(key);
    ColorGradient(base, Colors.LightenColor(base, GradientLighten))
  }

  /** The cover fit, covering the canvas and keeping the picture's shape. */
  lemma CoverFitCovers(srcW: real, srcH: real, canvasW: real, canvasH: real)
    requires srcW > 0.0 && srcH > 0.0 && canvasW > 0.0 && canvasH > 0.0
    ensures Covers(CoverFit(srcW, srcH, canvasW, canvasH), canvasW, canvasH)
  {
    var r := CoverFit(srcW, srcH, canvasW, canvasH);
    assert r.x + r.width == (canvasW + r.width) / 2.0;
    assert r.y + r.height == (canvasH + r.height) / 2.0;
  }

  /** `drawImageBackground(key)`: a loaded picture covers the canvas,
      keeping its proportions; otherwise the fallback gradient. */
  function ImageBackground(key: string, img: Option<Image>, canvasW: nat, canvasH: nat): (d: BackgroundDraw)
    requires canvasW > 0 && canvasH > 0
    requires img.Some? ==> img.value.WellFormed()
    ensures d.Picture? <==> img.Some? && img.value.complete && img.value.width > 0
    ensures d.Picture? ==> d.content == img.value.content && Covers(d.area, canvasW as real, canvasH as real)
    ensures d.Picture? ==> d.area.width * (img.value.height as real) == d.area.height * (img.value.width as real)
    ensures !d.Picture? ==> d == FallbackBackground(key)
  {
    if img.Some? && img.value.complete && img.value.width > 0 then
      var i := img.value;
      CoverFitCovers(i.width as real, i.height as real, canvasW as real, canvasH as real);
      Picture(i.content, CoverFit(i.width as real, i.height as real, canvasW as real, canvasH as real))
    else
      FallbackBackground(key)
  }

  /** `drawVideoBackground`: the placeholder while there is no video
      element or it has no current frame (`readyState < 2`); otherwise the
      frame covers the canvas, a video of unknown size counting as 640 x 480. */
  function VideoBackground(hasVideo: bool, readyState: nat, videoW: nat, videoH: nat, canvasW: nat, canvasH: nat): (d: BackgroundDraw)
    requires canvasW > 0 && canvasH > 0
    ensures d.VideoPlaceholder? <==> !hasVideo || readyState < 2
    ensures d.VideoPlaceholder? || d.VideoFrame?
    ensures d.VideoFrame? ==> Covers(d.area, canvasW as real, canvasH as real)
    ensures d.VideoFrame? ==>
      d.area.width * (VideoDimension(videoH, DefaultHeight) as real) == d.area.height * (VideoDimension(videoW, DefaultWidth) as real)
  {
    if !hasVideo || readyState < 2 then VideoPlaceholder
    else
      var w, h := VideoDimension(videoW, DefaultWidth) as real, VideoDimension(videoH, DefaultHeight) as real;
      CoverFitCovers(w, h, canvasW as real, canvasH as real);
      VideoFrame(CoverFit(w, h, canvasW as real, canvasH as real))
  }

  /** `prepareBackground`: the background mode picks the drawing; "green"
      and any unknown mode give the solid green. */
  function PlanBackground(background: string, img: Option<Image>, hasVideo: bool, readyState: nat,
                          videoW: nat, videoH: nat, canvasW: nat, canvasH: nat): (d: BackgroundDraw)
    requires canvasW > 0 && canvasH > 0
    requires img.Some? ==> img.value.WellFormed()
    ensures d.Picture? || d.ColorGradient? <==> IsImageMode(background)
    ensures d.BlurredCamera? <==> background == "blur"
    ensures d.VideoFrame? || d.VideoPlaceholder? <==> background == "video"
    ensures d.Solid? <==> !IsImageMode(background) && background != "blur" && background != "video"
    ensures d.Solid? ==> d.color == GreenScreen
  {
    NamedModesAreNotPictures();
    if IsImageMode(background) then ImageBackground(background, img, canvasW, canvasH)
    else if background == "green" then Solid(GreenScreen)
    else if background == "blur" then BlurredCamera
    else if background == "video" then VideoBackground(hasVideo, readyState, videoW, videoH, canvasW, canvasH)
    else Solid(GreenScreen)
  }

  /** In a picture mode, the picture itself is drawn exactly when the
      manager's `isImageLoaded` says it is loaded; otherwise the gradient. */
  lemma PictureExactlyWhenLoaded(bm: BackgroundManager, key: string, canvasW: nat, canvasH: nat)
    requires bm.Valid() && IsImageMode(key) && canvasW > 0 && canvasH > 0
    ensures var img := bm.GetBackgroundImage(key);
      img.Some? ==> img.value.WellFormed()
    ensures var d := PlanBackground(key, bm.GetBackgroundImage(key), bm.hasVideoElement, bm.videoReadyState,
                                    bm.videoWidth, bm.videoHeight, canvasW, canvasH);
      (d.Picture? <==> bm.IsImageLoaded(key)) && (!d.Picture? ==> d == FallbackBackground(key))
  {
  }

  /** What one frame puts on the output canvas: the composite of camera and
      background by the mask, or the plain camera frame; `card` says
      whether the employee card is drawn on top. */
  datatype Frame =
    | Composite(segmentation: Seg.Segmentation, background: BackgroundDraw, card: bool)
    | CameraOnly(card: bool)

  /** `segmentation ? fastDrawSegmentation(...) : fastDrawFallback()`. */
  function FrameFor(segmentation: Option<Seg.Segmentation>, background: BackgroundDraw, card: bool): (f: Frame)
    ensures f.card == card
    ensures f.Composite? <==> segmentation.Some?
    ensures f.Composite? ==> f.segmentation == segmentation.value && f.background == background
  {
    if segmentation.Some? then Composite(segmentation.value, background, card) else CameraOnly(card)
  }

  /** How one call of `processFrame` ended. */
  datatype Tick =
    | Stopped                 // not processing: the loop ends
    | Deferred(delay: real)   // too early: retried after `delay` ms
    | Drawn(frame: Frame, result: Option<Seg.SegResult>)

  /** How `getUserMedia` and the wait for the first camera frame went. */
  datatype CameraOutcome = Denied(errorName: string) | Granted

  /** The hint `showCameraError` adds to its message. */
  datatype CameraHint = AllowAccess | NoCamera | NoHint

  function CameraErrorHint(errorName: string): (h: CameraHint)
    ensures h == AllowAccess <==> errorName == "NotAllowedError"
    ensures h == NoCamera <==> errorName == "NotFoundError"
  {
    if errorName == "NotAllowedError" then AllowAccess
    else if errorName == "NotFoundError" then NoCamera
    else NoHint
  }

  /** The wait for the camera's first frame: its `loadeddata` listener and
      its 2 s timer. */
  datatype CameraWait = CameraWait(listening: bool, timerArmed: bool)

  class VideoProcessor {
    const bm: BackgroundManager
    var segmentator: Seg.Segmentator?
    /** `this.employeeDisplay !== null`. */
    var hasEmployeeDisplay: bool
    /** `this.stream !== null`. */
    var hasStream: bool
    var cameraWait: CameraWait
    var isVideoPlaying: bool
    var isProcessing: bool
    var fps: nat
    var frameCount: nat
    var lastFpsUpdate: real
    /** The processing time last shown on the page (ms). */
    var shownProcessingTime: nat
    var lastFrameTime: real
    var currentBackground: string
    var quality: string
    var targetFPS: nat
    var frameSkipCounter: nat
    var lastMask: Option<Seg.Segmentation>
    var forceRedraw: bool
    /** The page's output canvas. */
    var outputWidth: nat
    var outputHeight: nat
    /** The temp, mask, eroded-mask, text and background canvases: created
        together and always resized together, so one size stands for all. */
    var workWidth: nat
    var workHeight: nat
    var debugWidth: nat
    var debugHeight: nat
    var debugMaskWidth: nat
    var debugMaskHeight: nat
    /** The times of the frames counted since `lastFpsUpdate`. */
    ghost var window: seq<real>

    /** The frame rate is 60; the skip counter keeps its initial 0 (nothing
        ever changes it), so no frame is skipped and every frame is segmented
        afresh; the work canvases are never empty; the frame counter counts
        the frames of the current one-second window. (The
        background manager's own invariant is stated beside it, as
        `bm.Valid()`, by the members that touch the manager.) */
    ghost predicate Valid()
      reads this, segmentator
    {
      && targetFPS == 60
      && frameSkipCounter == 0
      && workWidth > 0 && workHeight > 0
      && (segmentator != null ==> segmentator.Valid())
      && frameCount == |window|
      && (forall i :: 0 <= i < |window| ==> lastFpsUpdate <= window[i] < lastFpsUpdate + 1000.0)
    }

    function Stats(): (nat, nat, real, nat)
      reads this`fps, this`frameCount, this`lastFpsUpdate, this`shownProcessingTime
    {
      (fps, frameCount, lastFpsUpdate, shownProcessingTime)
    }

    function Canvases(): (nat, nat, nat, nat, nat, nat, nat, nat)
      reads this
    {
      (outputWidth, outputHeight, workWidth, workHeight, debugWidth, debugHeight, debugMaskWidth, debugMaskHeight)
    }

    /** Every canvas has the frame size `width` x `height`; the debug
        canvases have half of it, rounded down. */
    predicate SizedFor(width: nat, height: nat)
      reads this
    {
      && outputWidth == width && outputHeight == height
      && workWidth == width && workHeight == height
      && debugWidth == width / 2 && debugHeight == height / 2
      && debugMaskWidth == debugWidth && debugMaskHeight == debugHeight
    }

    /** What `prepareBackground` would draw now. */
    function CurrentPlan(): BackgroundDraw
      requires workWidth > 0 && workHeight > 0 && bm.Valid()
      reads this`currentBackground, this`workWidth, this`workHeight, bm
    {
      PlanBackground(currentBackground, bm.GetBackgroundImage(currentBackground), bm.hasVideoElement,
        bm.videoReadyState, bm.videoWidth, bm.videoHeight, workWidth, workHeight)
    }

    /** A frame at `now` goes ahead: processing is on and it is not too early. */
    predicate Due(now: real)
      reads this
      requires targetFPS > 0
    {
      isProcessing && !TooEarly(now)
    }

    /** `shouldSkipFrame()`. */
    predicate ShouldSkipFrame()
      reads this`frameSkipCounter, this`lastMask
    {
      frameSkipCounter % 3 != 0 && lastMask.Some?
    }

    /** The statistics once `updatePerformanceStats` has counted a frame at
        `now`: a second after the last publication the count becomes `fps`
        and a new window starts. */
    function StatsAfter(processingTime: nat, now: real): (nat, nat, real, nat)
      reads this`fps, this`frameCount, this`lastFpsUpdate, this`shownProcessingTime
    {
      var counted: nat := frameCount + 1;
      if now - lastFpsUpdate >= 1000.0 then (counted, 0, now, processingTime)
      else (fps, counted, lastFpsUpdate, shownProcessingTime)
    }

    /** The frame times of the window once a frame at `now` is counted. */
    ghost function WindowAfter(now: real): seq<real>
      reads this`window, this`lastFpsUpdate
    {
      if now - lastFpsUpdate >= 1000.0 then [] else window + [now]
    }

    /** Drawing a composite now starts a preload of the background video:
        the video mode, with an element that has no current frame. */
    predicate PreloadsOnDraw()
      reads this`currentBackground, bm`hasVideoElement, bm`videoReadyState
    {
      currentBackground == "video" && bm.hasVideoElement && bm.videoReadyState < 2
    }

    /** The frame is not due yet: less than `1000 / targetFPS` ms have
        passed since the last one, and no redraw is forced. */
    predicate TooEarly(now: real)
      reads this
      requires targetFPS > 0
    {
      now - lastFrameTime < 1000.0 / (targetFPS as real) && !forceRedraw
    }

    /** `new VideoProcessor()`: the page supplies the output and debug
        canvases (with their sizes) and maybe the background video. */
    constructor(pageVideo: Option<MediaState>, outputW: nat, outputH: nat, debugW: nat, debugH: nat)
      ensures Valid() && bm.Valid() && fresh(bm)
      ensures bm.hasVideoElement && !bm.videoLoaded && bm.pending == ImageKeys && bm.loadedCount == 0
      ensures segmentator == null && !hasEmployeeDisplay && !hasStream && cameraWait == CameraWait(false, false)
      ensures !isVideoPlaying && !isProcessing && Stats() == (0, 0, 0.0, 0) && window == []
      ensures lastFrameTime == 0.0 && currentBackground == "green" && quality == "high" && targetFPS == 60
      ensures frameSkipCounter == 0 && lastMask == None && !forceRedraw
      ensures Canvases() == (outputW, outputH, FreshCanvasWidth, FreshCanvasHeight, debugW, debugH, FreshCanvasWidth, FreshCanvasHeight)
    {
      bm := new BackgroundManager(pageVideo);
      segmentator, hasEmployeeDisplay, hasStream, cameraWait := null, false, false, CameraWait(false, false);
      isVideoPlaying, isProcessing := false, false;
      fps, frameCount, lastFpsUpdate, shownProcessingTime, window := 0, 0, 0.0, 0, [];
      lastFrameTime, currentBackground, quality, targetFPS := 0.0, "green", "high", 60;
      frameSkipCounter, lastMask, forceRedraw := 0, None, false;
      outputWidth, outputHeight, workWidth, workHeight := outputW, outputH, FreshCanvasWidth, FreshCanvasHeight;
      debugWidth, debugHeight, debugMaskWidth, debugMaskHeight := debugW, debugH, FreshCanvasWidth, FreshCanvasHeight;
    }

    method SetEmployeeDisplay(present: bool)
      requires Valid()
      modifies this`hasEmployeeDisplay
      ensures Valid() && hasEmployeeDisplay == present
    {
      hasEmployeeDisplay := present;
    }

    method SetSegmentator(s: Seg.Segmentator?)
      requires Valid() && (s != null ==> s.Valid())
      modifies this`segmentator
      ensures Valid() && segmentator == s
    {
      segmentator := s;
    }

    /** Resize every canvas for frames of `width` x `height`. */
    method ResizeCanvases(width: nat, height: nat)
      requires Valid() && width > 0 && height > 0
      modifies this`outputWidth, this`outputHeight, this`workWidth, this`workHeight,
        this`debugWidth, this`debugHeight, this`debugMaskWidth, this`debugMaskHeight
      ensures Valid() && SizedFor(width, height)
    {
      outputWidth, outputHeight := width, height;
      debugWidth, debugHeight := width / 2, height / 2;
      workWidth, workHeight := width, height;
      debugMaskWidth, debugMaskHeight := debugWidth, debugHeight;
    }

    /** `setCanvasSizes()` for a camera reporting `videoWidth` x
        `videoHeight` (0 while unknown, which counts as 640 x 480). */
    method SetCanvasSizes(videoWidth: nat, videoHeight: nat)
      requires Valid()
      modifies this`outputWidth, this`outputHeight, this`workWidth, this`workHeight,
        this`debugWidth, this`debugHeight, this`debugMaskWidth, this`debugMaskHeight
      ensures Valid() && SizedFor(VideoDimension(videoWidth, DefaultWidth), VideoDimension(videoHeight, DefaultHeight))
    {
      ResizeCanvases(VideoDimension(videoWidth, DefaultWidth), VideoDimension(videoHeight, DefaultHeight));
    }

    /** `setDefaultCanvasSizes()`. */
    method SetDefaultCanvasSizes()
      requires Valid()
      modifies this`outputWidth, this`outputHeight, this`workWidth, this`workHeight,
        this`debugWidth, this`debugHeight, this`debugMaskWidth, this`debugMaskHeight
      ensures Valid() && SizedFor(DefaultWidth, DefaultHeight)
    {
      ResizeCanvases(DefaultWidth, DefaultHeight);
    }

    /** `startCamera()` up to the wait for the first frame: a refused
        camera gives `false` and the hint shown to the user; a granted one
        keeps the stream and starts waiting for `loadeddata` (or 2 s). */
    method StartCamera(outcome: CameraOutcome) returns (ok: bool, hint: Option<CameraHint>)
      requires Valid()
      modifies this`hasStream, this`cameraWait
      ensures Valid()
      ensures outcome.Denied? ==> !ok && hint == Some(CameraErrorHint(outcome.errorName)) && hasStream == old(hasStream)
      ensures outcome.Denied? ==> cameraWait == old(cameraWait)
      ensures outcome.Granted? ==> ok && hint == None && hasStream && cameraWait == CameraWait(true, true)
    {
      match outcome {
        case Denied(name) =>
          ok, hint := false, Some(CameraErrorHint(name));
        case Granted =>
          hasStream := true;
          cameraWait := CameraWait(true, true);
          ok, hint := true, None;
      }
    }

    /** The camera's `loadeddata` while the start waits for it: the listener
        is removed and the canvases take the camera's size. As the source
        is written, the 2 s timer stays armed (see `OnCameraLoadedData` for
        the corrected handler). */
    method OnCameraLoadedDataAsWritten(videoWidth: nat, videoHeight: nat)
      requires Valid() && cameraWait.listening
      modifies this`cameraWait, this`outputWidth, this`outputHeight, this`workWidth, this`workHeight,
        this`debugWidth, this`debugHeight, this`debugMaskWidth, this`debugMaskHeight
      ensures Valid() && SizedFor(VideoDimension(videoWidth, DefaultWidth), VideoDimension(videoHeight, DefaultHeight))
      ensures cameraWait == CameraWait(false, old(cameraWait.timerArmed))
    {
      cameraWait := cameraWait.(listening := false);
      SetCanvasSizes(videoWidth, videoHeight);
    }

    /** The camera's `loadeddata`, with the timer cleared as the start
        evidently intends: the canvases take the camera's size, and no
        later timer resets them. */
    method OnCameraLoadedData(videoWidth: nat, videoHeight: nat)
      requires Valid() && cameraWait.listening
      modifies this`cameraWait, this`outputWidth, this`outputHeight, this`workWidth, this`workHeight,
        this`debugWidth, this`debugHeight, this`debugMaskWidth, this`debugMaskHeight
      ensures Valid() && SizedFor(VideoDimension(videoWidth, DefaultWidth), VideoDimension(videoHeight, DefaultHeight))
      ensures cameraWait == CameraWait(false, false)
    {
      cameraWait := CameraWait(false, false);
      SetCanvasSizes(videoWidth, videoHeight);
    }

    /** The start's 2 s timer: the listener is removed and the canvases get
        the default 640 x 480. */
    method OnCameraTimer()
      requires Valid() && cameraWait.timerArmed
      modifies this`cameraWait, this`outputWidth, this`outputHeight, this`workWidth, this`workHeight,
        this`debugWidth, this`debugHeight, this`debugMaskWidth, this`debugMaskHeight
      ensures Valid() && SizedFor(DefaultWidth, DefaultHeight)
      ensures cameraWait == CameraWait(false, false)
    {
      cameraWait := CameraWait(false, false);
      SetDefaultCanvasSizes();
    }

    /** `stopCamera()`: the stream is stopped, the background video paused
        and rewound, processing stops and the cached mask is dropped. */
    method StopCamera()
      requires Valid() && bm.Valid()
      modifies this`hasStream, this`isVideoPlaying, this`isProcessing, this`lastMask, bm`videoPaused, bm`videoTime
      ensures Valid()
      ensures !hasStream && !isProcessing && lastMask == None
      ensures bm.hasVideoElement ==> !isVideoPlaying && bm.videoPaused && bm.videoTime == 0.0
      ensures !bm.hasVideoElement ==> isVideoPlaying == old(isVideoPlaying)
    {
      hasStream := false;
      if bm.hasVideoElement {
        bm.PauseVideo(true);
        isVideoPlaying := false;
      }
      isProcessing := false;
      lastMask := None;
    }

    /** `startProcessing()`, once the camera is ready, at time `now`:
        without a segmenter nothing starts. */
    method StartProcessing(now: real)
      requires Valid()
      modifies this`isProcessing, this`lastFrameTime
      ensures Valid()
      ensures segmentator == null ==> isProcessing == old(isProcessing) && lastFrameTime == old(lastFrameTime)
      ensures segmentator != null ==> isProcessing && lastFrameTime == now
    {
      if segmentator == null {
        return;
      }
      isProcessing := true;
      lastFrameTime := now;
    }

    /** `stopProcessing()`. */
    method StopProcessing()
      requires Valid()
      modifies this`isProcessing, this`lastMask
      ensures Valid() && !isProcessing && lastMask == None
    {
      isProcessing := false;
      lastMask := None;
    }

    /** `forceUpdate()`: the next frame is segmented afresh whatever the
        pacing says. */
    method ForceUpdate()
      requires Valid()
      modifies this`forceRedraw, this`lastMask
      ensures Valid() && forceRedraw && lastMask == None
    {
      forceRedraw := true;
      lastMask := None;
    }

    /** `updatePerformanceStats(processingTime)` at time `now`: a frame is
        counted; once a second has passed since the last publication, the
        count becomes `fps` and a new window starts. */
    method UpdatePerformanceStats(processingTime: nat, now: real)
      requires Valid() && now >= lastFpsUpdate
      modifies this`frameCount, this`window, this`fps, this`lastFpsUpdate, this`shownProcessingTime
      ensures Valid()
      ensures Stats() == old(StatsAfter(processingTime, now)) && window == old(WindowAfter(now))
      ensures now - old(lastFpsUpdate) >= 1000.0 ==>
        fps == |old(window)| + 1 && frameCount == 0 && lastFpsUpdate == now &&
        shownProcessingTime == processingTime && window == []
      ensures now - old(lastFpsUpdate) >= 1000.0 ==>
        forall i :: 0 <= i < |old(window)| ==> old(lastFpsUpdate) <= old(window)[i] <= now
      ensures now - old(lastFpsUpdate) < 1000.0 ==>
        frameCount == old(frameCount) + 1 && window == old(window) + [now] &&
        fps == old(fps) && lastFpsUpdate == old(lastFpsUpdate) && shownProcessingTime == old(shownProcessingTime)
    {
      frameCount := frameCount + 1;
      window := window + [now];
      if now - lastFpsUpdate >= 1000.0 {
        fps := frameCount;
        frameCount := 0;
        lastFpsUpdate := now;
        shownProcessingTime := processingTime;
        window := [];
      }
    }

    /** `prepareBackground()`: what is drawn, and the two side effects of
        the video mode — a preload started when the video has no frame yet,
        and `play()` requested when it is paused and not known to play. */
    method PrepareBackground() returns (draw: BackgroundDraw, preload: Option<Preload>, playRequested: bool)
      requires Valid() && bm.Valid()
      modifies bm`videoReadyState, bm`videoLoaded
      ensures Valid()
      ensures draw == old(CurrentPlan())
      ensures preload.Some? <==> old(PreloadsOnDraw())
      ensures preload.Some? ==> preload.value == Preload(None, true, true, true, true) && bm.videoReadyState == 0
      ensures preload.None? ==> bm.videoReadyState == old(bm.videoReadyState)
      ensures bm.videoLoaded == old(bm.videoLoaded)
      ensures playRequested <==>
        currentBackground == "video" && old(bm.hasVideoElement) && old(bm.videoReadyState) >= 2 &&
        !isVideoPlaying && old(bm.videoPaused)
    {
      draw := CurrentPlan();
      preload, playRequested := None, false;
      if currentBackground == "video" {
        if !bm.hasVideoElement || bm.videoReadyState < 2 {
          if bm.hasVideoElement && !bm.IsVideoLoaded() {
            var p := bm.PreloadVideo();
            preload := Some(p);
          }
        } else if !isVideoPlaying && bm.videoPaused {
          playRequested := true;
        }
      }
    }

    /** The background video's `play()` promise resolved. */
    method OnBackgroundPlayStarted()
      requires Valid() && bm.Valid()
      modifies this`isVideoPlaying, bm`videoPaused
      ensures Valid() && isVideoPlaying && !bm.videoPaused
    {
      bm.OnVideoPlaying();
      isVideoPlaying := true;
    }

    /** `processFrame()` at time `now` (ms). The camera is in ready state
        `cameraReadyState`; `send` and `drawTime` say how the segmenter's
        model call and fallback went; `statsNow` is the clock when the
        statistics are updated. */
    method ProcessFrame(now: real, cameraReadyState: int, send: Seg.SendOutcome, drawTime: nat, statsNow: real)
      returns (tick: Tick)
      requires Valid() && bm.Valid() && statsNow >= lastFpsUpdate
      modifies this`lastFrameTime, this`lastMask, this`forceRedraw,
        this`frameCount, this`window, this`fps, this`lastFpsUpdate, this`shownProcessingTime, bm`videoReadyState, bm`videoLoaded, segmentator
      ensures Valid()
      // Not processing: the loop ends.
      ensures !old(isProcessing) ==> tick == Stopped
      // Too early: retried after the rest of the frame time.
      ensures old(isProcessing) && old(TooEarly(now)) ==>
        tick == Deferred(1000.0 / 60.0 - (now - old(lastFrameTime))) && tick.delay > 0.0
      ensures tick.Stopped? || tick.Deferred? ==>
        lastFrameTime == old(lastFrameTime) && lastMask == old(lastMask) && forceRedraw == old(forceRedraw) &&
        Stats() == old(Stats()) && window == old(window) &&
        bm.videoReadyState == old(bm.videoReadyState) && bm.videoLoaded == old(bm.videoLoaded) &&
        (segmentator != null ==> segmentator.Snapshot() == old(segmentator.Snapshot()))
      // Every due frame is drawn, at the time taken as the frame time.
      ensures old(Due(now)) ==> tick.Drawn? && lastFrameTime == now
      ensures old(Due(now)) ==> DueFrameDrawn(tick, cameraReadyState, send, drawTime, statsNow)
    {
      if !isProcessing {
        return Stopped;
      }
      var elapsed := now - lastFrameTime;
      var frameTime := 1000.0 / (targetFPS as real);
      if elapsed < frameTime && !forceRedraw {
        return Deferred(frameTime - elapsed);
      }
      lastFrameTime := now;
      tick := ProcessDueFrame(cameraReadyState, send, drawTime, statsNow);
    }

    /** What a due frame leaves, as a two-state fact: without a segmenter the
        call throws and the plain camera frame is drawn with nothing else
        changed; with one, the segmenter's reply is drawn over the planned
        background, its mask (if any) is cached, a forced redraw ends, the
        frame is counted, and the segmenter is left as its call leaves it. */
    twostate predicate DueFrameDrawn(tick: Tick, cameraReadyState: int, send: Seg.SendOutcome, drawTime: nat, statsNow: real)
      requires old(workWidth > 0 && workHeight > 0 && bm.Valid())
      reads this, segmentator, bm
    {
      && segmentator == old(segmentator)
      && (old(segmentator) == null ==>
        && tick == Tick.Drawn(CameraOnly(hasEmployeeDisplay), None)
        && lastMask == old(lastMask) && forceRedraw == old(forceRedraw)
        && Stats() == old(Stats()) && window == old(window)
        && bm.videoReadyState == old(bm.videoReadyState) && bm.videoLoaded == old(bm.videoLoaded))
      && (old(segmentator) != null ==>
        var r := old(segmentator.Reply(cameraReadyState, send, drawTime));
        && tick == Tick.Drawn(FrameFor(r.segmentation, old(CurrentPlan()), hasEmployeeDisplay), Some(r))
        && segmentator.Snapshot() == old(segmentator.AfterSegmentFrame(cameraReadyState, send))
        && lastMask == (if r.segmentation.Some? then r.segmentation else old(lastMask)) && !forceRedraw
        && Stats() == old(StatsAfter(r.processingTime, statsNow)) && window == old(WindowAfter(statsNow))
        && bm.videoLoaded == old(bm.videoLoaded)
        && bm.videoReadyState == (if r.segmentation.Some? && old(PreloadsOnDraw()) then 0 else old(bm.videoReadyState)))
    }

    /** The rest of `processFrame` once the frame is due: the skip test
        (never true, the skip counter being 0), a fresh segmentation, the
        frame drawn and counted. */
    method ProcessDueFrame(cameraReadyState: int, send: Seg.SendOutcome, drawTime: nat, statsNow: real)
      returns (tick: Tick)
      requires Valid() && bm.Valid() && statsNow >= lastFpsUpdate
      modifies this`lastMask, this`forceRedraw,
        this`frameCount, this`window, this`fps, this`lastFpsUpdate, this`shownProcessingTime, bm`videoReadyState, bm`videoLoaded, segmentator
      ensures Valid() && tick.Drawn?
      ensures DueFrameDrawn(tick, cameraReadyState, send, drawTime, statsNow)
    {
      if !forceRedraw && ShouldSkipFrame() {
        assert false;
      }
      ghost var plan := CurrentPlan();
      var result := ObtainResult(cameraReadyState, send, drawTime);
      if result.None? {
        // `this.segmentator.segmentFrame` throws; the error is caught.
        return Tick.Drawn(CameraOnly(hasEmployeeDisplay), None);
      }
      assert CurrentPlan() == plan;
      tick := DrawAndCount(result.value, statsNow);
    }

    /** The end of a segmented frame: the result drawn, then counted. */
    method DrawAndCount(result: Seg.SegResult, statsNow: real) returns (tick: Tick)
      requires Valid() && bm.Valid() && statsNow >= lastFpsUpdate
      modifies this`frameCount, this`window, this`fps, this`lastFpsUpdate, this`shownProcessingTime, bm`videoReadyState, bm`videoLoaded
      ensures Valid()
      ensures tick == Tick.Drawn(FrameFor(result.segmentation, old(CurrentPlan()), hasEmployeeDisplay), Some(result))
      ensures Stats() == old(StatsAfter(result.processingTime, statsNow)) && window == old(WindowAfter(statsNow))
      ensures bm.videoLoaded == old(bm.videoLoaded)
      ensures bm.videoReadyState == (if result.segmentation.Some? && old(PreloadsOnDraw()) then 0 else old(bm.videoReadyState))
    {
      var frame := DrawResult(result);
      UpdatePerformanceStats(result.processingTime, statsNow);
      tick := Tick.Drawn(frame, Some(result));
    }

    /** The middle of `processFrame`: a fresh segmentation, whose mask (if
        any) is cached and which ends a forced redraw; `None` when there is
        no segmenter and the call throws. The reuse of the cached mask with a
        processing time of 1 ms is never reached: the skip counter is 0. */
    method ObtainResult(cameraReadyState: int, send: Seg.SendOutcome, drawTime: nat) returns (result: Option<Seg.SegResult>)
      requires Valid()
      modifies this`lastMask, this`forceRedraw, segmentator
      ensures Valid()
      ensures segmentator == null ==> result == None && lastMask == old(lastMask) && forceRedraw == old(forceRedraw)
      ensures segmentator != null ==>
        var r := old(segmentator.Reply(cameraReadyState, send, drawTime));
        result == Some(r) && lastMask == (if r.segmentation.Some? then r.segmentation else old(lastMask)) && !forceRedraw &&
        segmentator.Snapshot() == old(segmentator.AfterSegmentFrame(cameraReadyState, send))
    {
      if forceRedraw || frameSkipCounter % 2 == 0 {
        if segmentator == null {
          return None;
        }
        var r := segmentator.SegmentFrame(cameraReadyState, send, drawTime);
        if r.segmentation.Some? {
          lastMask := r.segmentation;
        }
        forceRedraw := false;
        result := Some(r);
      } else {
        assert false;
      }
    }

    /** `fastDrawSegmentation(mask)` when the result has a mask, otherwise
        `fastDrawFallback()`: the frame drawn, with the background prepared
        (and a video preload perhaps started) only in the first case. */
    method DrawResult(result: Seg.SegResult) returns (frame: Frame)
      requires Valid() && bm.Valid()
      modifies bm`videoReadyState, bm`videoLoaded
      ensures Valid()
      ensures frame == FrameFor(result.segmentation, old(CurrentPlan()), hasEmployeeDisplay)
      ensures bm.videoLoaded == old(bm.videoLoaded)
      ensures bm.videoReadyState == (if result.segmentation.Some? && old(PreloadsOnDraw()) then 0 else old(bm.videoReadyState))
    {
      frame := CameraOnly(hasEmployeeDisplay);
      if result.segmentation.Some? {
        var background, _, _ := PrepareBackground();
        frame := Composite(result.segmentation.value, background, hasEmployeeDisplay);
      }
    }

    /** `setBackground(background)`: a switch to the video starts a preload
        unless the video is loaded; a switch away from a playing video
        pauses it. The next frame is not forced. */
    method SetBackground(background: string) returns (preload: Option<Preload>)
      requires Valid() && bm.Valid()
      modifies this`currentBackground, this`isVideoPlaying, bm`videoReadyState, bm`videoLoaded, bm`videoPaused, bm`videoTime
      ensures Valid() && currentBackground == background
      ensures preload.Some? <==> background == "video" && !old(bm.IsVideoLoaded())
      ensures preload.Some? ==> (preload.value, bm.videoLoaded, bm.videoReadyState) == old(bm.PreloadOutcome())
      ensures preload.None? ==> bm.videoLoaded == old(bm.videoLoaded) && bm.videoReadyState == old(bm.videoReadyState)
      ensures background != "video" && old(isVideoPlaying) && bm.hasVideoElement ==> !isVideoPlaying && bm.videoPaused
      ensures !(background != "video" && old(isVideoPlaying) && bm.hasVideoElement) ==>
        isVideoPlaying == old(isVideoPlaying) && bm.videoPaused == old(bm.videoPaused)
      ensures bm.videoTime == old(bm.videoTime)
    {
      currentBackground := background;
      preload := None;
      if background == "video" && !bm.IsVideoLoaded() {
        var p := bm.PreloadVideo();
        preload := Some(p);
      }
      if background != "video" && isVideoPlaying {
        if bm.hasVideoElement {
          bm.PauseVideo(false);
          isVideoPlaying := false;
        }
      }
    }

    /** `setQuality(requested)`: whatever is asked for, "high" at 60 fps,
        and the segmenter is told so (it goes "ultra-fast"). */
    method SetQuality(requested: string)
      requires Valid()
      modifies this`quality, this`targetFPS, segmentator
      ensures Valid() && quality == "high" && targetFPS == 60
      ensures segmentator == old(segmentator)
      ensures segmentator != null ==> segmentator.Snapshot() == old(segmentator.Snapshot()).(quality := "ultra-fast")
    {
      quality := "high";
      targetFPS := 60;
      if segmentator != null {
        segmentator.SetQuality("high");
      }
    }
  }

  /** The camera start as written: a 1280 x 720 camera delivers its first
      frame, the canvases take its size, and the 2 s timer, which nothing
      cleared, still fires and shrinks them back to 640 x 480. */
  method CameraSizeLostAsWritten(vp: VideoProcessor)
    requires vp.Valid()
    modifies vp`hasStream, vp`cameraWait, vp`outputWidth, vp`outputHeight, vp`workWidth, vp`workHeight,
      vp`debugWidth, vp`debugHeight, vp`debugMaskWidth, vp`debugMaskHeight
    ensures vp.Valid() && vp.SizedFor(DefaultWidth, DefaultHeight)
  {
    var ok, hint := vp.StartCamera(Granted);
    vp.OnCameraLoadedDataAsWritten(1280, 720);
    assert vp.SizedFor(1280, 720) && vp.cameraWait.timerArmed;
    vp.OnCameraTimer();
  }

  /** The corrected start: once the first frame has sized the canvases the
      timer is disarmed, so the camera's 1280 x 720 stays. */
  method CameraSizeKept(vp: VideoProcessor)
    requires vp.Valid()
    modifies vp`hasStream, vp`cameraWait, vp`outputWidth, vp`outputHeight, vp`workWidth, vp`workHeight,
      vp`debugWidth, vp`debugHeight, vp`debugMaskWidth, vp`debugMaskHeight
    ensures vp.Valid() && vp.SizedFor(1280, 720) && !vp.cameraWait.timerArmed
  {
    var ok, hint := vp.StartCamera(Granted);
    vp.OnCameraLoadedData(1280, 720);
  }
}
