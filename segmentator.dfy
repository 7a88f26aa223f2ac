/** The segmenter that the video processor asks for a person mask: the
    MediaPipe Selfie Segmentation model when it loaded, otherwise (or for a
    frame where the model call fails) a fixed geometric mask. The MediaPipe
    library itself is outside the model: its construction and each `send`
    are abstract outcomes, and its `onResults` callback is an event method. */
module Segmentation {
  import opened Base
  import opened Geometry

  /** The value a segmentation call hands back as `segmentation`. */
  datatype Segmentation =
    /** A MediaPipe results object (it always carries a `segmentationMask`);
        `frame` identifies it and stands for its contents. */
    | ModelResults(frame: nat)
    /** The geometric fallback: a mask canvas with one white rectangle. */
    | FallbackMask(canvasWidth: real, canvasHeight: real, person: Rect, personPixels: real)

  /** `{ segmentation, processingTime, isFallback }`, as `segmentFrame`
      returns it; times in whole milliseconds. */
  datatype SegResult = SegResult(segmentation: Option<Segmentation>, processingTime: nat, isFallback: bool)

  /** How constructing and configuring `SelfieSegmentation` went. */
  datatype LoadOutcome =
    | LibraryMissing     // `typeof SelfieSegmentation === 'undefined'`
    | ConstructorThrew   // `new SelfieSegmentation(...)` threw
    | SetupThrew         // the model was built, then `setOptions`/`onResults` threw
    | Ready              // built and configured

  /** How one `await model.send(...)` went: it rejected, or it resolved
      after `elapsed` ms, and the model's `onResults` callback either ran
      during the call with `results`, or did not run. */
  datatype SendOutcome =
    | Rejected
    | Resolved(callback: Option<Segmentation>, elapsed: nat)

  /** Size of the fallback mask canvas. */
  const FallbackWidth: real := 64.0
  const FallbackHeight: real := 48.0

  /** The white "person" rectangle of the fallback mask: 60% of the canvas
      width by 70% of its height, centred. */
  function PersonRect(width: real, height: real): (r: Rect)
    requires width > 0.0 && height > 0.0
    ensures 0.0 < r.x && r.x + r.width < width
    ensures 0.0 < r.y && r.y + r.height < height
    ensures r.x + r.width / 2.0 == width / 2.0 && r.y + r.height / 2.0 == height / 2.0
    ensures r.width * 5.0 == width * 3.0 && r.height * 10.0 == height * 7.0
  {
    var personWidth := width * 0.6;
    var personHeight := height * 0.7;
    Rect((width - personWidth) / 2.0, (height - personHeight) / 2.0, personWidth, personHeight)
  }

  /** `ultraFastFallbackSegmentation`: a 64 x 48 mask, black with the person
      rectangle white, and `personPixels` its area. `drawTime` is the time
      the source measures around its (unused) `drawImage` of the frame. */
  function UltraFastFallbackSegmentation(drawTime: nat): (r: SegResult)
    ensures r.isFallback && r.processingTime == drawTime
    ensures r.segmentation.Some? && r.segmentation.value.FallbackMask?
    ensures var m := r.segmentation.value;
      m.canvasWidth == FallbackWidth && m.canvasHeight == FallbackHeight &&
      0.0 < m.person.x && m.person.x + m.person.width < FallbackWidth &&
      0.0 < m.person.y && m.person.y + m.person.height < FallbackHeight &&
      m.person.x + m.person.width / 2.0 == FallbackWidth / 2.0 &&
      m.person.y + m.person.height / 2.0 == FallbackHeight / 2.0 &&
      m.personPixels == m.person.width * m.person.height &&
      m.personPixels * 100.0 == 42.0 * FallbackWidth * FallbackHeight
  {
    var rect := PersonRect(FallbackWidth, FallbackHeight);
    SegResult(Some(FallbackMask(FallbackWidth, FallbackHeight, rect, rect.width * rect.height)), drawTime, true)
  }

  /** The segmenter's fields as one value, to say what a call leaves behind. */
  datatype SegState = SegState(hasModel: bool, isModelLoaded: bool, lastResults: Option<Segmentation>,
                               useFallback: bool, quality: string, processingFrame: bool, sends: nat)

  class Segmentator {
    /** `this.model !== null`. */
    var hasModel: bool
    var isModelLoaded: bool
    var lastResults: Option<Segmentation>
    var useFallback: bool
    var quality: string
    var processingFrame: bool
    /** How many times `model.send` has been called: not in the source,
        kept to state when the model is (not) invoked. */
    ghost var sends: nat

    /** The capability states the flags can be in: the fallback is only
        ever switched on together with "loaded", a loaded primary path
        always has a model, and a frame is only in flight once loaded. */
    ghost predicate Valid()
      reads this
    {
      && (useFallback ==> isModelLoaded)
      && (isModelLoaded && !useFallback ==> hasModel)
      && (processingFrame ==> isModelLoaded && hasModel)
    }

    constructor()
      ensures Valid()
      ensures !hasModel && !isModelLoaded && lastResults == None && !useFallback
      ensures quality == "fast" && !processingFrame && sends == 0
    {
      hasModel, isModelLoaded, lastResults, useFallback := false, false, None, false;
      quality, processingFrame, sends := "fast", false, 0;
    }

    /** `createFallbackModel`: from now on every call takes the fallback. */
    method CreateFallbackModel()
      requires Valid()
      modifies this
      ensures Valid()
      ensures isModelLoaded && useFallback
      ensures hasModel == old(hasModel) && lastResults == old(lastResults)
      ensures processingFrame == old(processingFrame) && quality == old(quality) && sends == old(sends)
    {
      isModelLoaded := true;
      useFallback := true;
    }

    /** `loadModel`: resolves `true` whatever happens; any failure switches
        to the fallback for good. */
    method LoadModel(outcome: LoadOutcome) returns (loaded: bool)
      requires Valid()
      modifies this
      ensures Valid()
      ensures loaded && isModelLoaded
      ensures useFallback == (old(useFallback) || outcome != Ready)
      ensures hasModel == (old(hasModel) || outcome == SetupThrew || outcome == Ready)
      ensures lastResults == old(lastResults) && processingFrame == old(processingFrame)
      ensures quality == old(quality) && sends == old(sends)
    {
      match outcome {
        case LibraryMissing =>
          CreateFallbackModel();
        case ConstructorThrew =>
          CreateFallbackModel();
        case SetupThrew =>
          hasModel := true;
          CreateFallbackModel();
        case Ready =>
          hasModel := true;
          isModelLoaded := true;
      }
      loaded := true;
    }

    /** The model's `onResults` callback: store the results, and the frame
        is no longer in flight. */
    method OnResults(results: Segmentation)
      requires Valid()
      modifies this
      ensures Valid()
      ensures lastResults == Some(results) && !processingFrame
      ensures hasModel == old(hasModel) && isModelLoaded == old(isModelLoaded)
      ensures useFallback == old(useFallback) && quality == old(quality) && sends == old(sends)
    {
      lastResults := Some(results);
      processingFrame := false;
    }

    ghost function Snapshot(): SegState
      reads this
    {
      SegState(hasModel, isModelLoaded, lastResults, useFallback, quality, processingFrame, sends)
    }

    /** The state `segmentFrame` leaves: only a call that reaches the model
        changes anything, counting the send and either storing the
        callback's results or leaving the frame in flight. */
    ghost function AfterSegmentFrame(readyState: int, send: SendOutcome): SegState
      reads this
    {
      if !isModelLoaded || processingFrame || useFallback || readyState < 2 then Snapshot()
      else match send
        case Rejected => Snapshot().(sends := sends + 1)
        case Resolved(callback, _) =>
          if callback.Some? then Snapshot().(lastResults := callback, sends := sends + 1)
          else Snapshot().(processingFrame := true, sends := sends + 1)
    }

    /** What `segmentFrame` resolves to from the current state: the cached
        results while not loaded or while a frame is in flight, the fallback
        mask in fallback mode or when the model call fails, nothing for a
        video that is not ready, and otherwise the results the callback
        stored (or the cached ones when it did not run). */
    function Reply(readyState: int, send: SendOutcome, drawTime: nat): SegResult
      reads this
    {
      if !isModelLoaded || processingFrame then SegResult(lastResults, 0, false)
      else if useFallback then UltraFastFallbackSegmentation(drawTime)
      else if readyState < 2 then SegResult(None, 0, false)
      else match send
        case Rejected => UltraFastFallbackSegmentation(drawTime)
        case Resolved(callback, elapsed) =>
          SegResult(if callback.Some? then callback else lastResults, elapsed, false)
    }

    /** `segmentFrame(videoElement)`, for a video element in ready state
        `readyState`. The primary path hands the frame to the model; `send`
        says how that call went. */
    method SegmentFrame(readyState: int, send: SendOutcome, drawTime: nat) returns (r: SegResult)
      requires Valid()
      modifies this
      ensures Valid()
      ensures r == old(Reply(readyState, send, drawTime))
      ensures Snapshot() == old(AfterSegmentFrame(readyState, send))
      ensures hasModel == old(hasModel) && isModelLoaded == old(isModelLoaded)
      ensures useFallback == old(useFallback) && quality == old(quality)
      // Not loaded, or a frame still in flight: the cached results, nothing changes.
      ensures !old(isModelLoaded) || old(processingFrame) ==>
        r == SegResult(old(lastResults), 0, false) &&
        lastResults == old(lastResults) && processingFrame == old(processingFrame) && sends == old(sends)
      // Fallback mode: the fallback mask; the model is not called.
      ensures old(isModelLoaded) && !old(processingFrame) && old(useFallback) ==>
        r == UltraFastFallbackSegmentation(drawTime) &&
        lastResults == old(lastResults) && !processingFrame && sends == old(sends)
      // Video not ready: no segmentation; the model is not called.
      ensures old(isModelLoaded) && !old(processingFrame) && !old(useFallback) && readyState < 2 ==>
        r == SegResult(None, 0, false) &&
        lastResults == old(lastResults) && !processingFrame && sends == old(sends)
      // Primary path: the model is called once.
      ensures old(isModelLoaded) && !old(processingFrame) && !old(useFallback) && readyState >= 2 ==>
        sends == old(sends) + 1 &&
        match send
        // A failed call: this frame gets the fallback mask, the model stays in use.
        case Rejected =>
          r == UltraFastFallbackSegmentation(drawTime) && !processingFrame && lastResults == old(lastResults)
        // The callback's results, if it ran, are stored and returned.
        case Resolved(callback, elapsed) =>
          r == SegResult(lastResults, elapsed, false) &&
          (callback.Some? ==> lastResults == callback && !processingFrame) &&
          (callback.None? ==> lastResults == old(lastResults) && processingFrame)
    {
      if !isModelLoaded || processingFrame {
        return SegResult(lastResults, 0, false);
      }
      if useFallback {
        return UltraFastFallbackSegmentation(drawTime);
      }
      if readyState < 2 {
        return SegResult(None, 0, false);
      }
      processingFrame := true;
      sends := sends + 1;
      match send {
        case Rejected =>
          processingFrame := false;
          r := UltraFastFallbackSegmentation(drawTime);
        case Resolved(callback, elapsed) =>
          if callback.Some? {
            OnResults(callback.value);
          }
          r := SegResult(lastResults, elapsed, false);
      }
    }

    /** `setQuality`: whatever is asked for, the quality becomes "ultra-fast". */
    method SetQuality(requested: string)
      modifies this
      ensures quality == "ultra-fast"
      ensures hasModel == old(hasModel) && isModelLoaded == old(isModelLoaded) && lastResults == old(lastResults)
      ensures useFallback == old(useFallback) && processingFrame == old(processingFrame) && sends == old(sends)
    {
      quality := "ultra-fast";
    }
  }

  /** The transient-failure scenario: a model call that fails gives the
      fallback mask for that frame only, and the next frame goes back to the
      model. */
  method TransientFailureScenario(s: Segmentator, results: Segmentation)
    requires s.Valid() && s.isModelLoaded && !s.useFallback && !s.processingFrame
    modifies s
    ensures s.Valid() && !s.useFallback
  {
    var first := s.SegmentFrame(4, Rejected, 1);
    assert first.isFallback;
    var second := s.SegmentFrame(4, Resolved(Some(results), 20), 1);
    assert second == SegResult(Some(results), 20, false);
    assert s.sends == old(s.sends) + 2;
  }
}
