/** The application controller: the IDLE/RUNNING/PAUSED state machine,
    the exclusion-area test and the scan loop. The worker thread becomes
    explicit `InitStep` and `Step` calls; screen capture with recognition
    and the translation call are oracle outcomes passed in. */
module App {
  import opened Wrappers
  import opened Strings
  import opened Json
  import Regions
  import Ocr
  import Overlay
  import Providers
  import Translation

  datatype AppState = Idle | Running | Paused

  /** The controller's `AppConfig`. */
  datatype ControllerConfig = ControllerConfig(ocrIntervalMs: int, cacheEnabled: bool, gpuEnabled: bool)

  function DefaultControllerConfig(): ControllerConfig {
    ControllerConfig(400, true, true)
  }

  // ---- Exclusion areas ----

  /** An exclusion area and the box `(x, y, w, h)` overlap, strictly, on
      both axes. A missing coordinate of the area reads as 0. */
  predicate Overlaps(area: Object, x: int, y: int, w: int, h: int) {
    var ax, ay := GetInt(area, "x", 0), GetInt(area, "y", 0);
    var aw, ah := GetInt(area, "width", 0), GetInt(area, "height", 0);
    x < ax + aw && x + w > ax && y < ay + ah && y + h > ay
  }

  predicate InExclusion(areas: seq<Object>, x: int, y: int, w: int, h: int) {
    exists i :: 0 <= i < |areas| && Overlaps(areas[i], x, y, w, h)
  }

  function AreaDict(x: int, y: int, w: int, h: int): Object {
    map["x" := JInt(x), "y" := JInt(y), "width" := JInt(w), "height" := JInt(h)]
  }

  /** A box of size zero is caught only when it lies strictly inside an area. */
  lemma PointInsideOnly(area: Object, x: int, y: int)
    ensures Overlaps(area, x, y, 0, 0) <==>
              GetInt(area, "x", 0) < x < GetInt(area, "x", 0) + GetInt(area, "width", 0) &&
              GetInt(area, "y", 0) < y < GetInt(area, "y", 0) + GetInt(area, "height", 0)
  {
  }

  /** The overlap test between two rectangles does not depend on which one
      is the area. */
  lemma OverlapSymmetric(x: int, y: int, w: int, h: int, ox: int, oy: int, ow: int, oh: int)
    ensures Overlaps(AreaDict(ox, oy, ow, oh), x, y, w, h) == Overlaps(AreaDict(x, y, w, h), ox, oy, ow, oh)
  {
    var a, b := AreaDict(ox, oy, ow, oh), AreaDict(x, y, w, h);
    assert a["x"] == JInt(ox) && a["y"] == JInt(oy) && a["width"] == JInt(ow) && a["height"] == JInt(oh);
    assert b["x"] == JInt(x) && b["y"] == JInt(y) && b["width"] == JInt(w) && b["height"] == JInt(h);
  }

  /** An area of size zero is caught only by a box strictly around its corner. */
  lemma EmptyAreaCaughtInside(ax: int, ay: int, x: int, y: int, w: int, h: int)
    ensures Overlaps(AreaDict(ax, ay, 0, 0), x, y, w, h) <==> x < ax < x + w && y < ay < y + h
  {
    OverlapSymmetric(x, y, w, h, ax, ay, 0, 0);
    PointInsideOnly(AreaDict(x, y, w, h), ax, ay);
    var b := AreaDict(x, y, w, h);
    assert b["x"] == JInt(x) && b["y"] == JInt(y) && b["width"] == JInt(w) && b["height"] == JInt(h);
  }

  // ---- One frame ----

  /** What capturing and recognising one region gave: the capture raised,
      the recognition raised, or a recognition result. */
  datatype RegionOutcome = CaptureFailed | OcrFailed | Recognised(result: Ocr.OcrResult)

  /** The outcome for the region at position `i`; regions without one count
      as failed captures. */
  function OutcomeAt(outcomes: seq<RegionOutcome>, i: nat): RegionOutcome {
    if i < |outcomes| then outcomes[i] else CaptureFailed
  }

  /** Some region among the first `n` reached the reader and got a result:
      an uninitialised engine builds its reader there. A failed build shows
      as `OcrFailed` and leaves the engine uninitialised. */
  predicate ReaderBuilt(n: nat, outcomes: seq<RegionOutcome>) {
    exists i :: 0 <= i < n && OutcomeAt(outcomes, i).Recognised?
  }

  /** The regions one frame scans: the enabled ones, else the current one. */
  function FrameRegions(enabled: seq<Regions.Region>, current: Option<Regions.Region>): Option<seq<Regions.Region>> {
    if enabled != [] then Some(enabled)
    else if current.Some? then Some([current.value])
    else None
  }

  /** A recognised box moved to screen coordinates hits an exclusion area. */
  predicate BoxHits(r: Regions.Region, b: Ocr.Box, areas: seq<Object>) {
    InExclusion(areas, r.x + b.x0, r.y + b.y0, b.x1 - b.x0, b.y1 - b.y0)
  }

  predicate Excluded(r: Regions.Region, boxes: seq<Ocr.Box>, areas: seq<Object>) {
    exists k :: 0 <= k < |boxes| && BoxHits(r, boxes[k], areas)
  }

  /** The text a region contributes: its stripped text, unless capture or
      recognition failed, the text is blank, or one of its boxes hits an
      exclusion area. */
  function Contribution(r: Regions.Region, o: RegionOutcome, areas: seq<Object>): (c: Option<string>)
    ensures c.Some? <==> o.Recognised? && !IsBlank(o.result.text) && !Excluded(r, o.result.boxes, areas)
    ensures c.Some? ==> c.value == Strip(o.result.text) && c.value != ""
  {
    StripEmptyIffBlank(if o.Recognised? then o.result.text else "");
    if !o.Recognised? || Strip(o.result.text) == "" then None
    else if Excluded(r, o.result.boxes, areas) then None
    else Some(Strip(o.result.text))
  }

  /** The kept texts of a frame, in region order. */
  function FrameTexts(rs: seq<Regions.Region>, outcomes: seq<RegionOutcome>, areas: seq<Object>): seq<string> {
    if rs == [] then []
    else
      var c := Contribution(rs[|rs| - 1], OutcomeAt(outcomes, |rs| - 1), areas);
      FrameTexts(rs[..|rs| - 1], outcomes, areas) + (if c.Some? then [c.value] else [])
  }

  /** Every kept text is non-empty and already stripped, and there is at
      most one per region. */
  lemma {:induction false} FrameTextsStripped(rs: seq<Regions.Region>, outcomes: seq<RegionOutcome>, areas: seq<Object>)
    ensures |FrameTexts(rs, outcomes, areas)| <= |rs|
    ensures forall t :: t in FrameTexts(rs, outcomes, areas) ==> t != "" && exists s :: t == Strip(s)
  {
    if rs != [] {
      FrameTextsStripped(rs[..|rs| - 1], outcomes, areas);
    }
  }

  /** A region each of whose outcomes is excluded contributes nothing, so a
      frame whose every region is blocked by an exclusion area keeps no text. */
  lemma {:induction false} AllExcludedKeepsNothing(rs: seq<Regions.Region>, outcomes: seq<RegionOutcome>,
                                                   areas: seq<Object>)
    requires forall i :: 0 <= i < |rs| ==>
               OutcomeAt(outcomes, i).Recognised? && Excluded(rs[i], OutcomeAt(outcomes, i).result.boxes, areas)
    ensures FrameTexts(rs, outcomes, areas) == []
  {
    if rs != [] {
      AllExcludedKeepsNothing(rs[..|rs| - 1], outcomes, areas);
    }
  }

  /** The text the frame would translate: the joined kept texts, when there
      are any and they differ from the last text. */
  function FrameCandidate(rs: Option<seq<Regions.Region>>, outcomes: seq<RegionOutcome>, areas: seq<Object>,
                          lastText: string): (c: Option<string>)
    ensures c.Some? <==> rs.Some? && FrameTexts(rs.value, outcomes, areas) != []
                         && Join(" ", FrameTexts(rs.value, outcomes, areas)) != lastText
    ensures c.Some? ==> c.value == Join(" ", FrameTexts(rs.value, outcomes, areas)) && c.value != lastText
  {
    if rs.None? then None
    else
      var kept := FrameTexts(rs.value, outcomes, areas);
      if kept == [] || Join(" ", kept) == lastText then None else Some(Join(" ", kept))
  }

  const ApiKeyWarning := "⚠️ API anahtarı ayarlanmamış!"
  const TranslationFailed := "⚠️ Çeviri hatası"
  const LoadingMessage := "⏳ OCR yükleniyor..."
  const ReadyMessage := "✅ Hazır - Metin bekleniyor..."
  const OcrErrorPrefix := "❌ OCR hatası: "

  /** The overlay message for a translation outcome: the translation, or a
      warning chosen by whether the error message mentions the API key. */
  function OverlayMessage(outcome: Result<string, string>): (m: string)
    ensures outcome.Ok? ==> m == outcome.value
    ensures outcome.Err? ==> m == (if Contains(outcome.error, "API anahtarı") then ApiKeyWarning else TranslationFailed)
  {
    match outcome
    case Ok(t) => t
    case Err(e) => if Contains(e, "API anahtarı") then ApiKeyWarning else TranslationFailed
  }

  /** A missing key raised by the translation engine shows the key warning. */
  lemma MissingKeyShowsWarning(p: Providers.Provider)
    ensures OverlayMessage(Err(Translation.MissingKeyMessage(p))) == ApiKeyWarning
  {
  }

  /** `str(e)[:50]`. */
  function Take(s: string, n: nat): (r: string)
    ensures |r| <= n && r <= s
    ensures |s| <= n ==> r == s
  {
    if |s| <= n then s else s[..n]
  }

  /** The loop's pause: what remains of the interval after processing. */
  function WaitMs(intervalMs: int, processingMs: nat): (w: int)
    ensures w >= 0 && processingMs + w >= intervalMs
    ensures w > 0 ==> processingMs + w == intervalMs
  {
    if intervalMs - processingMs > 0 then intervalMs - processingMs else 0
  }

  const PausedPollMs := 100

  class ApplicationController {
    var config: ControllerConfig
    var state: AppState
    var fps: real
    var frameCount: nat
    var lastText: string
    var ocrReady: bool
    var exclusionAreas: seq<Object>
    var selector: Regions.RegionSelector?
    var ocrEngine: Ocr.OcrEngine?
    /** Whether a translation engine is attached; its answers are oracle outcomes. */
    var hasTranslator: bool
    var overlay: Overlay.OverlayWindow?
    /** Which callbacks are registered. */
    var onStateChanged: bool
    var onTextDetected: bool
    var onTranslationComplete: bool
    /** The arguments the callbacks and the translation engine were called with. */
    var stateEvents: seq<AppState>
    var detectedEvents: seq<string>
    var completedEvents: seq<string>
    var translationRequests: seq<string>

    constructor (c: Option<ControllerConfig>)
      ensures config == c.GetOr(DefaultControllerConfig())
      ensures state == Idle && fps == 0.0 && frameCount == 0 && lastText == "" && !ocrReady
      ensures exclusionAreas == [] && selector == null && ocrEngine == null && !hasTranslator && overlay == null
      ensures !onStateChanged && !onTextDetected && !onTranslationComplete
      ensures stateEvents == [] && detectedEvents == [] && completedEvents == [] && translationRequests == []
    {
      config := c.GetOr(DefaultControllerConfig());
      state, fps, frameCount, lastText, ocrReady := Idle, 0.0, 0, "", false;
      exclusionAreas, selector, ocrEngine, hasTranslator, overlay := [], null, null, false, null;
      onStateChanged, onTextDetected, onTranslationComplete := false, false, false;
      stateEvents, detectedEvents, completedEvents, translationRequests := [], [], [], [];
    }

    /** What the controller is wired to: configuration, exclusion areas,
        components and registered callbacks. Only the setters change it. */
    function Wiring(): (ControllerConfig, seq<Object>, Regions.RegionSelector?, Ocr.OcrEngine?, bool,
                        Overlay.OverlayWindow?, (bool, bool, bool))
      reads this
    {
      (config, exclusionAreas, selector, ocrEngine, hasTranslator, overlay,
       (onStateChanged, onTextDetected, onTranslationComplete))
    }

    /** Where the loop stands: state, rate, frame count, last text, readiness. */
    function Progress(): (AppState, real, nat, string, bool)
      reads this
    {
      (state, fps, frameCount, lastText, ocrReady)
    }

    /** What the callbacks and the translation engine have been called with. */
    function Traces(): (seq<AppState>, seq<string>, seq<string>, seq<string>)
      reads this
    {
      (stateEvents, detectedEvents, completedEvents, translationRequests)
    }

    method SetOcrEngine(e: Ocr.OcrEngine?)
      modifies this
      ensures Wiring() == old(Wiring()).(3 := e)
      ensures Progress() == old(Progress()) && Traces() == old(Traces())
    {
      ocrEngine := e;
    }

    method SetTranslationEngine(present: bool)
      modifies this
      ensures Wiring() == old(Wiring()).(4 := present)
      ensures Progress() == old(Progress()) && Traces() == old(Traces())
    {
      hasTranslator := present;
    }

    method SetRegionSelector(s: Regions.RegionSelector?)
      modifies this
      ensures Wiring() == old(Wiring()).(2 := s)
      ensures Progress() == old(Progress()) && Traces() == old(Traces())
    {
      selector := s;
    }

    method SetOverlayWindow(o: Overlay.OverlayWindow?)
      modifies this
      ensures Wiring() == old(Wiring()).(5 := o)
      ensures Progress() == old(Progress()) && Traces() == old(Traces())
    {
      overlay := o;
    }

    /** `set_exclusion_areas`. */
    method SetExclusionAreas(areas: seq<Object>)
      modifies this
      ensures Wiring() == old(Wiring()).(1 := areas)
      ensures Progress() == old(Progress()) && Traces() == old(Traces())
    {
      exclusionAreas := areas;
    }

    function GetExclusionAreas(): seq<Object>
      reads this
    {
      exclusionAreas
    }

    /** `on_state_changed`, `on_text_detected`, `on_translation_complete`. */
    method RegisterCallbacks(stateChanged: bool, textDetected: bool, translationComplete: bool)
      modifies this
      ensures Wiring() == old(Wiring()).(6 := (stateChanged, textDetected, translationComplete))
      ensures Progress() == old(Progress()) && Traces() == old(Traces())
    {
      onStateChanged, onTextDetected, onTranslationComplete := stateChanged, textDetected, translationComplete;
    }

    /** `_is_in_exclusion_area`: the areas are tried in order and the first
        overlap answers. */
    method IsInExclusionArea(x: int, y: int, w: int, h: int) returns (r: bool)
      ensures r == InExclusion(exclusionAreas, x, y, w, h)
    {
      for i := 0 to |exclusionAreas|
        invariant forall k :: 0 <= k < i ==> !Overlaps(exclusionAreas[k], x, y, w, h)
      {
        var area := exclusionAreas[i];
        var ax, ay := GetInt(area, "x", 0), GetInt(area, "y", 0);
        var aw, ah := GetInt(area, "width", 0), GetInt(area, "height", 0);
        if x < ax + aw && x + w > ax && y < ay + ah && y + h > ay {
          return true;
        }
      }
      return false;
    }

    function GetState(): AppState
      reads this
    {
      state
    }

    function GetFps(): real
      reads this
    {
      fps
    }

    /** The state callback, when registered, hears the new state. */
    function Notified(s: AppState): seq<AppState>
      reads this
    {
      stateEvents + (if onStateChanged then [s] else [])
    }

    /** `start`: a no-op when already running; otherwise, from IDLE or from
        PAUSED alike, the loop restarts with its counters reset. */
    method Start()
      modifies this
      ensures Wiring() == old(Wiring()) && fps == old(fps)
      ensures old(state) == Running ==> state == Running && frameCount == old(frameCount)
                                        && lastText == old(lastText) && ocrReady == old(ocrReady)
                                        && stateEvents == old(stateEvents)
      ensures old(state) != Running ==> state == Running && frameCount == 0 && lastText == "" && !ocrReady
                                        && stateEvents == old(Notified(Running))
      ensures detectedEvents == old(detectedEvents) && completedEvents == old(completedEvents)
      ensures translationRequests == old(translationRequests)
    {
      if state == Running {
        return;
      }
      state := Running;
      frameCount := 0;
      lastText := "";
      ocrReady := false;
      stateEvents := Notified(Running);
    }

    /** `stop`: a no-op when idle; otherwise the state becomes IDLE and the
        rate and readiness are cleared. */
    method Stop()
      modifies this
      ensures Wiring() == old(Wiring()) && frameCount == old(frameCount) && lastText == old(lastText)
      ensures old(state) == Idle ==> state == Idle && fps == old(fps) && ocrReady == old(ocrReady)
                                     && stateEvents == old(stateEvents)
      ensures old(state) != Idle ==> state == Idle && fps == 0.0 && !ocrReady && stateEvents == old(Notified(Idle))
      ensures detectedEvents == old(detectedEvents) && completedEvents == old(completedEvents)
      ensures translationRequests == old(translationRequests)
    {
      if state == Idle {
        return;
      }
      state := Idle;
      fps := 0.0;
      ocrReady := false;
      stateEvents := Notified(Idle);
    }

    /** `pause`: only RUNNING moves, to PAUSED. */
    method Pause()
      modifies this
      ensures Wiring() == old(Wiring()) && frameCount == old(frameCount) && lastText == old(lastText)
      ensures ocrReady == old(ocrReady) && fps == old(fps)
      ensures state == (if old(state) == Running then Paused else old(state))
      ensures stateEvents == (if old(state) == Running then old(Notified(Paused)) else old(stateEvents))
      ensures detectedEvents == old(detectedEvents) && completedEvents == old(completedEvents)
      ensures translationRequests == old(translationRequests)
    {
      if state == Running {
        state := Paused;
        stateEvents := Notified(Paused);
      }
    }

    /** `resume`: only PAUSED moves, back to RUNNING. */
    method Resume()
      modifies this
      ensures Wiring() == old(Wiring()) && frameCount == old(frameCount) && lastText == old(lastText)
      ensures ocrReady == old(ocrReady) && fps == old(fps)
      ensures state == (if old(state) == Paused then Running else old(state))
      ensures stateEvents == (if old(state) == Paused then old(Notified(Running)) else old(stateEvents))
      ensures detectedEvents == old(detectedEvents) && completedEvents == old(completedEvents)
      ensures translationRequests == old(translationRequests)
    {
      if state == Paused {
        state := Running;
        stateEvents := Notified(Running);
      }
    }

    /** `_update_overlay`: the overlay, when there is one, gets the text. */
    method UpdateOverlay(text: string)
      modifies overlay
      ensures overlay != null ==> overlay.State() == Overlay.Posted(old(overlay.State()), text)
    {
      if overlay != null {
        overlay.SetText(text);
      }
    }

    /** The reader is built when there is an engine that is not initialised
        yet; `err` is the message of the exception that propagates, if any. */
    method BuildReader(initError: Option<Ocr.InitFailure>) returns (err: Option<string>)
      modifies ocrEngine
      ensures ocrEngine != null ==> ocrEngine.config == old(ocrEngine.config)
                                    && ocrEngine.initialized == (old(ocrEngine.initialized) || initError.None?)
      ensures err == if ocrEngine != null && !old(ocrEngine.initialized) && initError.Some?
                     then Some(Ocr.InitFailureMessage(initError.value)) else None
    {
      err := None;
      if ocrEngine != null && !ocrEngine.IsInitialized() {
        err := ocrEngine.InitReader(initError);
      }
    }

    /** The start of `_ocr_loop`: announce loading, build the OCR reader if
        it is not built yet (`initError` is the library's failure, if
        any), then announce readiness. On failure the loop ends, reported
        by `proceed` being false. */
    method InitStep(initError: Option<Ocr.InitFailure>) returns (proceed: bool)
      modifies this, overlay, ocrEngine
      ensures Wiring() == old(Wiring())
      ensures ocrEngine != null ==> ocrEngine.config == old(ocrEngine.config)
                                    && ocrEngine.initialized == (old(ocrEngine.initialized) || initError.None?)
      ensures var fails := ocrEngine != null && !old(ocrEngine.initialized) && initError.Some?;
              proceed == !fails && ocrReady == (old(ocrReady) || !fails)
      ensures var fails := ocrEngine != null && !old(ocrEngine.initialized) && initError.Some?;
              var m := if fails then OcrErrorPrefix + Take(Ocr.InitFailureMessage(initError.value), 50)
                       else ReadyMessage;
              overlay != null ==> overlay.State() == Overlay.Posted(old(overlay.State()), m)
      ensures state == old(state) && lastText == old(lastText) && frameCount == old(frameCount)
      ensures fps == old(fps) && Traces() == old(Traces())
    {
      UpdateOverlay(LoadingMessage);
      var err := BuildReader(initError);
      if err.Some? {
        UpdateOverlay(OcrErrorPrefix + Take(err.value, 50));
        return false;
      }
      ocrReady := true;
      UpdateOverlay(ReadyMessage);
      proceed := true;
    }

    /** The frame reaches the region loop and one region gets a result, so
        the reader is built if it was not. */
    predicate FrameBuildsReader(outcomes: seq<RegionOutcome>)
      reads this, selector
    {
      selector != null && ocrEngine != null && ocrReady &&
      var rs := FrameRegions(selector.GetEnabledRegions(), selector.GetCurrentRegion());
      rs.Some? && ReaderBuilt(|rs.value|, outcomes)
    }

    /** The frame's candidate text in the current state. */
    function Candidate(outcomes: seq<RegionOutcome>): Option<string>
      reads this, selector
    {
      if selector == null || ocrEngine == null || !ocrReady then None
      else FrameCandidate(FrameRegions(selector.GetEnabledRegions(), selector.GetCurrentRegion()),
                          outcomes, exclusionAreas, lastText)
    }

    /** The box loop of `_process_frame`: one hit is enough to skip the region. */
    method RegionExcluded(r: Regions.Region, boxes: seq<Ocr.Box>) returns (skip: bool)
      ensures skip == Excluded(r, boxes, exclusionAreas)
    {
      skip := false;
      if exclusionAreas == [] || boxes == [] {
        return;
      }
      var j := 0;
      while j < |boxes|
        invariant 0 <= j <= |boxes|
        invariant forall k :: 0 <= k < j ==> !BoxHits(r, boxes[k], exclusionAreas)
      {
        var b := boxes[j];
        var hit := IsInExclusionArea(r.x + b.x0, r.y + b.y0, b.x1 - b.x0, b.y1 - b.y0);
        if hit {
          assert BoxHits(r, boxes[j], exclusionAreas);
          return true;
        }
        j := j + 1;
      }
    }

    /** The region loop of `_process_frame`: the kept texts in region order;
        a region that gets a result has made an uninitialised engine build
        its reader first. */
    method ScanRegions(rs: seq<Regions.Region>, outcomes: seq<RegionOutcome>) returns (texts: seq<string>)
      modifies ocrEngine
      ensures texts == FrameTexts(rs, outcomes, exclusionAreas)
      ensures ocrEngine != null ==> ocrEngine.config == old(ocrEngine.config)
                                    && ocrEngine.initialized == (old(ocrEngine.initialized) || ReaderBuilt(|rs|, outcomes))
    {
      texts := [];
      for i := 0 to |rs|
        invariant texts == FrameTexts(rs[..i], outcomes, exclusionAreas)
        invariant ocrEngine != null ==> ocrEngine.config == old(ocrEngine.config)
                                        && ocrEngine.initialized == (old(ocrEngine.initialized) || ReaderBuilt(i, outcomes))
      {
        assert rs[..i + 1][..i] == rs[..i];
        var o := OutcomeAt(outcomes, i);
        if o.Recognised? && ocrEngine != null && !ocrEngine.IsInitialized() {
          var _ := ocrEngine.InitReader(None);
        }
        if o.Recognised? && Strip(o.result.text) != "" {
          var skip := RegionExcluded(rs[i], o.result.boxes);
          if !skip {
            texts := texts + [Strip(o.result.text)];
          }
        }
      }
      assert rs[..|rs|] == rs;
    }

    /** The end of `_process_frame`: a new text becomes the last text, is
        reported and is translated; no text changes nothing. */
    method Publish(c: Option<string>, translation: Result<string, string>)
      modifies this, overlay
      ensures Wiring() == old(Wiring()) && state == old(state) && ocrReady == old(ocrReady)
      ensures frameCount == old(frameCount) && stateEvents == old(stateEvents) && fps == old(fps)
      ensures c.None? ==> lastText == old(lastText) && detectedEvents == old(detectedEvents)
                          && translationRequests == old(translationRequests) && completedEvents == old(completedEvents)
      ensures overlay != null ==>
                overlay.State() == if c.Some? && hasTranslator
                                   then Overlay.Posted(old(overlay.State()), OverlayMessage(translation))
                                   else old(overlay.State())
      ensures c.Some? ==> lastText == c.value
                          && detectedEvents == old(detectedEvents) + (if onTextDetected then [c.value] else [])
                          && translationRequests == old(translationRequests) + (if hasTranslator then [c.value] else [])
      ensures c.Some? ==> completedEvents == old(completedEvents) +
                            (if hasTranslator && onTranslationComplete && translation.Ok? then [translation.value] else [])
    {
      if c.None? {
        return;
      }
      lastText := c.value;
      if onTextDetected {
        detectedEvents := detectedEvents + [c.value];
      }
      if hasTranslator {
        TranslateText(c.value, translation);
      }
    }

    /** `_process_frame`: scan the regions, keep the texts not blank and not
        excluded, join them, and translate the result when it is new. */
    method ProcessFrame(outcomes: seq<RegionOutcome>, translation: Result<string, string>)
      modifies this, overlay, ocrEngine
      ensures Wiring() == old(Wiring()) && state == old(state) && ocrReady == old(ocrReady)
      ensures ocrEngine != null ==> ocrEngine.config == old(ocrEngine.config)
                                    && ocrEngine.initialized == (old(ocrEngine.initialized) || old(FrameBuildsReader(outcomes)))
      ensures frameCount == old(frameCount) && stateEvents == old(stateEvents) && fps == old(fps)
      ensures var c := old(Candidate(outcomes));
              c.None? ==> lastText == old(lastText) && detectedEvents == old(detectedEvents)
                          && translationRequests == old(translationRequests) && completedEvents == old(completedEvents)
      ensures var c := old(Candidate(outcomes));
              overlay != null ==>
                overlay.State() == if c.Some? && hasTranslator
                                   then Overlay.Posted(old(overlay.State()), OverlayMessage(translation))
                                   else old(overlay.State())
      ensures var c := old(Candidate(outcomes));
              c.Some? ==> lastText == c.value
                          && detectedEvents == old(detectedEvents) + (if onTextDetected then [c.value] else [])
                          && translationRequests == old(translationRequests) + (if hasTranslator then [c.value] else [])
      ensures var c := old(Candidate(outcomes));
              c.Some? ==> completedEvents == old(completedEvents) +
                            (if hasTranslator && onTranslationComplete && translation.Ok? then [translation.value] else [])
    {
      ghost var c := Candidate(outcomes);
      if selector == null || ocrEngine == null || !ocrReady {
        Publish(None, translation);
        return;
      }
      var rs := selector.GetEnabledRegions();
      if rs == [] {
        var current := selector.GetCurrentRegion();
        if current.Some? {
          rs := [current.value];
        } else {
          Publish(None, translation);
          return;
        }
      }
      assert FrameRegions(selector.GetEnabledRegions(), selector.GetCurrentRegion()) == Some(rs);
      var texts := ScanRegions(rs, outcomes);
      if texts == [] {
        Publish(None, translation);
        return;
      }
      var combined := Join(" ", texts);
      if combined == lastText {
        Publish(None, translation);
        return;
      }
      assert c == Some(combined);
      Publish(Some(combined), translation);
    }

    /** `_translate_text`: ask the engine, show the translation or the
        warning for the error, and report a completed translation. */
    method TranslateText(text: string, outcome: Result<string, string>)
      modifies this, overlay
      ensures Wiring() == old(Wiring()) && state == old(state) && ocrReady == old(ocrReady)
      ensures frameCount == old(frameCount) && stateEvents == old(stateEvents) && fps == old(fps)
      ensures lastText == old(lastText) && detectedEvents == old(detectedEvents)
      ensures translationRequests == old(translationRequests) + [text]
      ensures overlay != null ==> overlay.State() == Overlay.Posted(old(overlay.State()), OverlayMessage(outcome))
      ensures completedEvents == old(completedEvents) +
                (if onTranslationComplete && outcome.Ok? then [outcome.value] else [])
    {
      translationRequests := translationRequests + [text];
      match outcome {
        case Ok(translated) =>
          UpdateOverlay(translated);
          if onTranslationComplete {
            completedEvents := completedEvents + [translated];
          }
        case Err(msg) =>
          if Contains(msg, "API anahtarı") {
            UpdateOverlay(ApiKeyWarning);
          } else {
            UpdateOverlay(TranslationFailed);
          }
      }
    }

    /** One pass of the scan loop. A paused loop sleeps 100 ms; a stopped
        one does nothing; a running one processes a frame and counts it.
        Once at least a second (`elapsedSeconds`, from the clock) has passed
        since the last rate update, the rate becomes the frame count over
        that time and the count restarts. The loop then waits out the rest
        of the interval. */
    method Step(outcomes: seq<RegionOutcome>, translation: Result<string, string>, processingMs: nat,
                elapsedSeconds: real) returns (waitMs: int)
      modifies this, overlay, ocrEngine
      ensures Wiring() == old(Wiring()) && state == old(state) && ocrReady == old(ocrReady)
      ensures ocrEngine != null ==> ocrEngine.config == old(ocrEngine.config)
      ensures ocrEngine != null ==> ocrEngine.initialized == (old(ocrEngine.initialized)
                                      || (old(state) == Running && old(FrameBuildsReader(outcomes))))
      ensures stateEvents == old(stateEvents)
      ensures old(state) != Running ==> waitMs == (if old(state) == Paused then PausedPollMs else 0)
                                        && Progress() == old(Progress()) && Traces() == old(Traces())
      ensures old(state) != Running && overlay != null ==> overlay.State() == old(overlay.State())
      ensures old(state) == Running ==>
                waitMs == WaitMs(config.ocrIntervalMs, processingMs)
                && frameCount == (if elapsedSeconds >= 1.0 then 0 else old(frameCount) + 1)
                && fps == (if elapsedSeconds >= 1.0 then (old(frameCount) + 1) as real / elapsedSeconds else old(fps))
      ensures var c := old(Candidate(outcomes));
              old(state) == Running && overlay != null ==>
                overlay.State() == if c.Some? && hasTranslator
                                   then Overlay.Posted(old(overlay.State()), OverlayMessage(translation))
                                   else old(overlay.State())
      ensures var c := old(Candidate(outcomes));
              old(state) == Running && c.None? ==>
                lastText == old(lastText) && Traces() == old(Traces())
      ensures var c := old(Candidate(outcomes));
              old(state) == Running && c.Some? ==>
                lastText == c.value
                && detectedEvents == old(detectedEvents) + (if onTextDetected then [c.value] else [])
                && translationRequests == old(translationRequests) + (if hasTranslator then [c.value] else [])
                && completedEvents == old(completedEvents) +
                     (if hasTranslator && onTranslationComplete && translation.Ok? then [translation.value] else [])
    {
      if state == Idle {
        return 0;
      }
      if state == Paused {
        return PausedPollMs;
      }
      ProcessFrame(outcomes, translation);
      frameCount := frameCount + 1;
      if elapsedSeconds >= 1.0 {
        fps := frameCount as real / elapsedSeconds;
        frameCount := 0;
      }
      waitMs := WaitMs(config.ocrIntervalMs, processingMs);
    }
  }

  /** A fresh controller with a state callback: `start` then `stop` reports
      RUNNING then IDLE. */
  method StartThenStop() returns (events: seq<AppState>)
    ensures events == [Running, Idle]
  {
    var app := new ApplicationController(None);
    app.RegisterCallbacks(true, false, false);
    app.Start();
    app.Stop();
    events := app.stateEvents;
  }

  /** From RUNNING, a `resume` and a second `pause` are ignored, and `pause`
      then `resume` reports PAUSED then RUNNING. */
  method PauseResume(app: ApplicationController)
    requires app.state == Running
    modifies app
    ensures app.state == Running
    ensures app.stateEvents == old(app.stateEvents) + (if app.onStateChanged then [Paused, Running] else [])
  {
    app.Resume();
    app.Pause();
    app.Pause();
    app.Resume();
  }

  /** `start` from PAUSED re-enters RUNNING and resets the frame state. */
  method StartFromPaused(app: ApplicationController)
    requires app.state == Paused
    modifies app
    ensures app.state == Running && app.frameCount == 0 && app.lastText == "" && !app.ocrReady
  {
    app.Start();
  }

  /** Two consecutive frames that see the same regions and texts ask for
      at most one translation. */
  method IdenticalFramesTranslateOnce(app: ApplicationController, outcomes: seq<RegionOutcome>,
                                      t1: Result<string, string>, t2: Result<string, string>)
    modifies app, app.overlay, app.ocrEngine
    ensures |app.translationRequests| <= |old(app.translationRequests)| + 1
  {
    app.ProcessFrame(outcomes, t1);
    ghost var afterFirst := app.translationRequests;
    app.ProcessFrame(outcomes, t2);
    assert app.translationRequests == afterFirst;
  }
}
