/** The background manager: it preloads the seven background pictures,
    counting completions (a picture that fails gets a generated gradient
    picture instead), and looks after the looping background video, whose
    loading it reports as a promise. Image and video elements are the
    browser's: their state is given to the event methods below. */
module BackgroundManagement {
  import opened Base
  import Colors

  /** The keys of the seven background pictures. */
  const ImageKeys: set<string> := {"image1", "image2", "image3", "image4", "image5", "image6", "image7"}

  /** The colour each picture is replaced by when it is missing: shared by
      the generated fallback picture and by the video processor's fallback
      background. */
  const FallbackColors: map<string, string> := map[
    "image1" := "#FF6B6B", "image2" := "#4ECDC4", "image3" := "#45B7D1",
    "image4" := "#96CEB4", "image5" := "#FFEAA7", "image6" := "#DDA0DD", "image7" := "#98D8C8"]

  /** `Math.round(2.55 * 30)`: the amount every fallback gradient lightens its
      end colour by (2.55 * 30 is 76.5 in IEEE doubles, which rounds up). */
  const GradientLighten: nat := 77

  lemma FallbackColorsWellFormed()
    ensures FallbackColors.Keys == ImageKeys
    ensures forall k :: k in FallbackColors ==> Colors.IsHexColor(FallbackColors[k])
  {
    assert Colors.IsHexColor("#FF6B6B") && Colors.IsHexColor("#4ECDC4") && Colors.IsHexColor("#45B7D1");
    assert Colors.IsHexColor("#96CEB4") && Colors.IsHexColor("#FFEAA7") && Colors.IsHexColor("#DDA0DD");
    assert Colors.IsHexColor("#98D8C8");
  }

  lemma ImageKeysCount()
    ensures |ImageKeys| == 7
  {
  }

  /** What a picture shows: a photograph loaded from a path, or a generated
      diagonal gradient between two colours. */
  datatype ImageContent = Photo(path: string) | Gradient(from: string, to: string)

  /** An image element: `complete`, its natural size, and its content. */
  datatype Image = Image(complete: bool, width: nat, height: nat, content: ImageContent) {
    /** A decoded picture has both dimensions or neither. */
    predicate WellFormed() { width > 0 <==> height > 0 }
  }

  function ImagePath(key: string): string
    requires key in ImageKeys
  {
    "./backgrounds/background" + [key[5]] + ".jpg"
  }

  /** The gradient `createFallbackImage` draws for a picture that failed. */
  function FallbackImage(key: string): (img: Image)
    requires key in ImageKeys
    ensures img.complete && img.width == 1920 && img.height == 1080 && img.WellFormed()
    ensures img.content.Gradient? && img.content.from == FallbackColors[key] && Colors.IsHexColor(img.content.from)
    ensures img.content.to == Colors.LightenColor(img.content.from, GradientLighten)
    ensures Colors.IsLowerHexColor(img.content.to)
  {
    FallbackColorsWellFormed();
    var base := FallbackColors[key];
    Image(true, 1920, 1080, Gradient(base, Colors.LightenColor(base, GradientLighten)))
  }

  /** Events the background video's element fires while a preload waits. */
  datatype VideoEvent = LoadedData | CanPlay | MediaError | Timeout

  /** One `preloadVideo` promise and what is still attached to it: its
      result once settled, the three one-shot listeners and the 5 s timer. */
  datatype Preload = Preload(result: Option<bool>, onLoaded: bool, onCanPlay: bool, onError: bool, timer: bool)

  /** A promise settles once: later resolutions are ignored. */
  function Settle(result: Option<bool>, value: bool): (r: Option<bool>)
    ensures r.Some?
    ensures result.Some? ==> r == result
  {
    if result.Some? then result else Some(value)
  }

  /** One event delivered to a waiting preload: the new listener state,
      and whether a handler set `videoLoaded`. `loadeddata` and `canplay`
      clear the timer, set `videoLoaded` and resolve `true`; `error` clears
      the timer and resolves `false`; the timer, unless cleared, removes the
      `loadeddata` and `error` listeners (not the `canplay` one) and
      resolves `false`. */
  function Deliver(p: Preload, ev: VideoEvent): (r: (Preload, bool))
    ensures p.result.Some? ==> r.0.result == p.result
    ensures r.1 <==> (ev == LoadedData && p.onLoaded) || (ev == CanPlay && p.onCanPlay)
    ensures p.result.None? && r.0.result == Some(true) ==> r.1
    ensures p.result.None? && r.1 ==> r.0.result == Some(true) && !r.0.timer
    ensures p.result.None? && ev == MediaError && p.onError ==> r.0.result == Some(false) && !r.0.timer
    ensures ev == Timeout && p.timer ==> !r.0.onLoaded && !r.0.onError && !r.0.timer
    ensures ev != CanPlay ==> r.0.onCanPlay == p.onCanPlay
    ensures p.result.None? && ev == Timeout && p.timer ==> r.0.result == Some(false)
  {
    match ev
    case LoadedData =>
      if p.onLoaded then (p.(result := Settle(p.result, true), onLoaded := false, timer := false), true)
      else (p, false)
    case CanPlay =>
      if p.onCanPlay then (p.(result := Settle(p.result, true), onCanPlay := false, timer := false), true)
      else (p, false)
    case MediaError =>
      if p.onError then (p.(result := Settle(p.result, false), onError := false, timer := false), false)
      else (p, false)
    case Timeout =>
      if p.timer then (p.(result := Settle(p.result, false), onLoaded := false, onError := false, timer := false), false)
      else (p, false)
  }

  /** A sequence of events delivered in order: the final preload state, and
      whether any handler set `videoLoaded` on the way. */
  function DeliverAll(p: Preload, evs: seq<VideoEvent>): (Preload, bool)
    decreases |evs|
  {
    if |evs| == 0 then (p, false)
    else
      var step := Deliver(p, evs[0]);
      var rest := DeliverAll(step.0, evs[1..]);
      (rest.0, step.1 || rest.1)
  }

  /** Once a preload has settled, no later event changes its result. */
  lemma {:induction false} SettledPreloadKeepsResult(p: Preload, evs: seq<VideoEvent>)
    requires p.result.Some?
    ensures DeliverAll(p, evs).0.result == p.result
    decreases |evs|
  {
    if |evs| > 0 {
      SettledPreloadKeepsResult(Deliver(p, evs[0]).0, evs[1..]);
    }
  }

  /** A preload that resolved `true` did so in a handler that set
      `videoLoaded`. */
  lemma {:induction false} ResolvedTrueSetsVideoLoaded(p: Preload, evs: seq<VideoEvent>)
    requires p.result.None?
    requires DeliverAll(p, evs).0.result == Some(true)
    ensures DeliverAll(p, evs).1
    decreases |evs|
  {
    if |evs| > 0 {
      var step := Deliver(p, evs[0]);
      if step.0.result.None? {
        ResolvedTrueSetsVideoLoaded(step.0, evs[1..]);
      } else if step.0.result == Some(false) {
        SettledPreloadKeepsResult(step.0, evs[1..]);
      }
    }
  }

  /** A preload whose timer fires first resolves `false` without setting
      `videoLoaded`. */
  lemma TimeoutFirstResolvesFalse(p: Preload, evs: seq<VideoEvent>)
    requires p == Preload(None, true, true, true, true)
    requires |evs| > 0 && evs[0] == Timeout
    ensures DeliverAll(p, evs).0.result == Some(false)
    ensures !Deliver(p, evs[0]).1
  {
    SettledPreloadKeepsResult(Deliver(p, evs[0]).0, evs[1..]);
  }

  /** While the `canplay` listener is attached, a `canplay` event among
      the events to come sets `videoLoaded`. */
  lemma {:induction false} CanPlayListenerFires(p: Preload, evs: seq<VideoEvent>)
    requires p.onCanPlay && CanPlay in evs
    ensures DeliverAll(p, evs).1
    decreases |evs|
  {
    if evs[0] != CanPlay {
      assert CanPlay in evs[1..];
      CanPlayListenerFires(Deliver(p, evs[0]).0, evs[1..]);
    }
  }

  /** The timer does not remove the `canplay` listener: a preload that
      timed out resolves `false`, yet a later `canplay` still sets
      `videoLoaded`. */
  lemma LateCanPlayAfterTimeout(p: Preload, evs: seq<VideoEvent>)
    requires p == Preload(None, true, true, true, true)
    requires |evs| > 0 && evs[0] == Timeout && CanPlay in evs[1..]
    ensures DeliverAll(p, evs).0.result == Some(false)
    ensures DeliverAll(p, evs).1
  {
    var step := Deliver(p, evs[0]);
    SettledPreloadKeepsResult(step.0, evs[1..]);
    CanPlayListenerFires(step.0, evs[1..]);
  }

  /** The state of a media element as the browser reports it. */
  datatype MediaState = MediaState(readyState: nat, paused: bool, time: real, width: nat, height: nat)

  class BackgroundManager {
    var backgroundImages: map<string, Image>
    var imagesLoaded: bool
    var loadedCount: nat
    var totalCount: nat
    var videoLoaded: bool
    /** `this.videoElement !== null`. */
    var hasVideoElement: bool
    /** The video element's `readyState`, `paused` and `currentTime`
        (seconds); the browser moves `readyState` on its own. */
    var videoReadyState: nat
    var videoPaused: bool
    var videoTime: real
    /** The video's `videoWidth` and `videoHeight` (0 until known). */
    var videoWidth: nat
    var videoHeight: nat
    /** Pictures whose first load has not completed yet. */
    ghost var pending: set<string>
    /** Pictures whose generated fallback has not been stored yet. */
    ghost var generating: set<string>

    /** Each of the seven pictures completes once; the flag says whether
        all have completed; only known pictures are ever stored. */
    ghost predicate Valid()
      reads this`totalCount, this`loadedCount, this`imagesLoaded, this`backgroundImages, this`pending, this`generating
    {
      && totalCount == 7
      && pending <= ImageKeys && generating <= ImageKeys
      && pending !! generating
      && loadedCount + |pending| == totalCount
      && imagesLoaded == (loadedCount == totalCount)
      && backgroundImages.Keys <= ImageKeys
      && (forall k :: k in backgroundImages ==> backgroundImages[k].WellFormed())
    }

    /** `new BackgroundManager()`: starts loading the seven pictures and
        takes the page's `#backgroundVideo` element when there is one (in the
        state given), or creates a fresh one, so that there is always a video
        element afterwards. */
    constructor(found: Option<MediaState>)
      ensures Valid()
      ensures backgroundImages == map[] && !imagesLoaded && loadedCount == 0 && totalCount == 7
      ensures !videoLoaded && hasVideoElement
      ensures found.Some? ==> videoReadyState == found.value.readyState && videoPaused == found.value.paused
      ensures found.Some? ==> videoTime == found.value.time
      ensures found.Some? ==> videoWidth == found.value.width && videoHeight == found.value.height
      ensures found.None? ==> videoReadyState == 0 && videoPaused && videoTime == 0.0 && videoWidth == 0 && videoHeight == 0
      ensures pending == ImageKeys && generating == {}
    {
      backgroundImages, imagesLoaded, loadedCount, totalCount := map[], false, 0, 7;
      videoLoaded, hasVideoElement := false, true;
      if found.Some? {
        var m := found.value;
        videoReadyState, videoPaused, videoTime, videoWidth, videoHeight := m.readyState, m.paused, m.time, m.width, m.height;
      } else {
        videoReadyState, videoPaused, videoTime, videoWidth, videoHeight := 0, true, 0.0, 0, 0;
      }
      pending, generating := ImageKeys, {};
      ImageKeysCount();
    }

    /** `img.onload` for picture `key`, decoded at `width` x `height`. */
    method OnImageLoad(key: string, width: nat, height: nat)
      requires Valid() && key in pending
      requires width > 0 <==> height > 0
      modifies this`loadedCount, this`backgroundImages, this`pending, this`imagesLoaded
      ensures Valid()
      ensures loadedCount == old(loadedCount) + 1
      ensures backgroundImages == old(backgroundImages)[key := Image(true, width, height, Photo(ImagePath(key)))]
      ensures imagesLoaded == (loadedCount == totalCount) && (old(imagesLoaded) ==> imagesLoaded)
      ensures pending == old(pending) - {key} && generating == old(generating)
    {
      loadedCount := loadedCount + 1;
      backgroundImages := backgroundImages[key := Image(true, width, height, Photo(ImagePath(key)))];
      pending := pending - {key};
      if loadedCount == totalCount {
        imagesLoaded := true;
      }
    }

    /** `img.onerror` for picture `key`: counted like a load, and a gradient
        picture is generated in its place (stored when it has loaded). */
    method OnImageError(key: string)
      requires Valid() && key in pending
      modifies this`loadedCount, this`pending, this`generating, this`imagesLoaded
      ensures Valid()
      ensures loadedCount == old(loadedCount) + 1
      ensures backgroundImages == old(backgroundImages)
      ensures imagesLoaded == (loadedCount == totalCount) && (old(imagesLoaded) ==> imagesLoaded)
      ensures pending == old(pending) - {key} && generating == old(generating) + {key}
    {
      loadedCount := loadedCount + 1;
      pending := pending - {key};
      generating := generating + {key};
      if loadedCount == totalCount {
        imagesLoaded := true;
      }
    }

    /** The generated picture's own `onload`: it is stored under its key;
        the completion count is not touched again. */
    method OnFallbackImageLoad(key: string)
      requires Valid() && key in generating
      modifies this`backgroundImages, this`generating
      ensures Valid()
      ensures backgroundImages == old(backgroundImages)[key := FallbackImage(key)]
      ensures loadedCount == old(loadedCount) && imagesLoaded == old(imagesLoaded)
      ensures pending == old(pending) && generating == old(generating) - {key}
    {
      backgroundImages := backgroundImages[key := FallbackImage(key)];
      generating := generating - {key};
    }

    /** `getBackgroundImage(key)`. */
    function GetBackgroundImage(key: string): (img: Option<Image>)
      reads this
      ensures img.Some? <==> key in backgroundImages
      ensures img.Some? ==> img.value == backgroundImages[key]
    {
      if key in backgroundImages then Some(backgroundImages[key]) else None
    }

    /** `isImageLoaded(key)`: the picture `getBackgroundImage` hands out is
        decoded. */
    function IsImageLoaded(key: string): (loaded: bool)
      reads this
      ensures loaded <==> (var img := GetBackgroundImage(key); img.Some? && img.value.complete && img.value.width > 0)
    {
      key in backgroundImages && backgroundImages[key].complete && backgroundImages[key].width > 0
    }

    /** `isVideoLoaded()`: a video counted as loaded has an element with a
        current frame. */
    function IsVideoLoaded(): (loaded: bool)
      reads this
      ensures loaded ==> videoLoaded && hasVideoElement && videoReadyState >= 2
    {
      videoLoaded && hasVideoElement && videoReadyState >= 2
    }

    /** `reloadVideo()`: `load()` restarts the media element (its
        `readyState` falls back to HAVE_NOTHING, per the media element load
        algorithm of the HTML standard) and the flag is cleared. */
    method ReloadVideo()
      modifies this`videoReadyState, this`videoLoaded
      ensures hasVideoElement ==> !videoLoaded && videoReadyState == 0
      ensures !hasVideoElement ==> videoLoaded == old(videoLoaded) && videoReadyState == old(videoReadyState)
      ensures !IsVideoLoaded()
    {
      if hasVideoElement {
        videoReadyState := 0;
        videoLoaded := false;
      }
    }

    /** What `preloadVideo()` returns and leaves behind from the current
        state: the promise, `videoLoaded` and the video's `readyState`. */
    function PreloadOutcome(): (Preload, bool, nat)
      reads this`hasVideoElement, this`videoReadyState, this`videoLoaded
    {
      if !hasVideoElement then (Preload(Some(false), false, false, false, false), videoLoaded, videoReadyState)
      else if videoReadyState >= 3 then (Preload(Some(true), false, false, false, false), true, videoReadyState)
      else (Preload(None, true, true, true, true), videoLoaded, 0)
    }

    /** The synchronous part of `preloadVideo()`: no element resolves
        `false`; an element that can already play (`readyState >= 3`) sets
        `videoLoaded` and resolves `true`; otherwise the listeners and the
        timer are attached and the element is reloaded. */
    method PreloadVideo() returns (p: Preload)
      modifies this`videoReadyState, this`videoLoaded
      ensures (p, videoLoaded, videoReadyState) == old(PreloadOutcome())
      ensures hasVideoElement && old(videoReadyState) >= 3 ==> IsVideoLoaded()
      ensures !hasVideoElement ==> p.result == Some(false) && videoLoaded == old(videoLoaded)
      ensures hasVideoElement && old(videoReadyState) >= 3 ==> p.result == Some(true) && videoLoaded
      ensures hasVideoElement && old(videoReadyState) < 3 ==>
        p == Preload(None, true, true, true, true) && videoLoaded == old(videoLoaded) && videoReadyState == 0
    {
      if !hasVideoElement {
        return Preload(Some(false), false, false, false, false);
      }
      if videoReadyState >= 3 {
        videoLoaded := true;
        return Preload(Some(true), false, false, false, false);
      }
      videoReadyState := 0;
      p := Preload(None, true, true, true, true);
    }

    /** An event reaching a waiting preload's listeners. */
    method OnPreloadEvent(p: Preload, ev: VideoEvent) returns (next: Preload)
      modifies this`videoLoaded
      ensures next == Deliver(p, ev).0
      ensures videoLoaded == (old(videoLoaded) || Deliver(p, ev).1)
    {
      var step := Deliver(p, ev);
      if step.1 {
        videoLoaded := true;
      }
      next := step.0;
    }

    /** `video.pause()`, and with `rewind` also `video.currentTime = 0`. */
    method PauseVideo(rewind: bool)
      modifies this`videoPaused, this`videoTime
      ensures videoPaused && (rewind ==> videoTime == 0.0) && (!rewind ==> videoTime == old(videoTime))
    {
      videoPaused := true;
      if rewind {
        videoTime := 0.0;
      }
    }

    /** `video.play()` was asked for and playback started. */
    method OnVideoPlaying()
      modifies this`videoPaused
      ensures !videoPaused
    {
      videoPaused := false;
    }
  }

  /** The picture-loading scenario: whatever mix of loads and errors the
      seven pictures end with, once each has completed the manager reports
      all pictures loaded. */
  method LoadAllScenario(bm: BackgroundManager, fails: set<string>)
    requires bm.Valid() && bm.pending == ImageKeys
    modifies bm
    ensures bm.Valid() && bm.imagesLoaded && bm.loadedCount == 7 && bm.pending == {}
  {
    var remaining := ImageKeys;
    while remaining != {}
      invariant bm.Valid() && bm.pending == remaining
      decreases |remaining|
    {
      var key :| key in remaining;
      if key in fails {
        bm.OnImageError(key);
      } else {
        bm.OnImageLoad(key, 1920, 1080);
      }
      remaining := remaining - {key};
    }
  }
}
