/** The OCR engine's configuration (languages, speed, GPU flag) with its
    reinitialisation flag, and the assembly of a recognition result from
    the reader's detections. The EasyOCR reader is an oracle: its output
    for the image is a parameter. */
module Ocr {
  import opened Wrappers
  import opened Strings

  datatype Speed = Fast | Normal | Accurate

  /** `OCRConfig` of the engine. */
  datatype OcrConfig = OcrConfig(speed: Speed, gpuEnabled: bool, languages: seq<string>, confidenceThreshold: real)

  function DefaultOcrConfig(): OcrConfig {
    OcrConfig(Normal, true, ["en"], 0.7)
  }

  /** The language codes the reader accepts. */
  const Supported: seq<string> := ["en", "ja", "ko", "tr", "de", "fr", "es", "it", "pt", "ru"]

  /** `[l for l in languages if l in supported]`. */
  function FilterSupported(langs: seq<string>): (r: seq<string>)
    ensures forall x :: x in r <==> x in langs && x in Supported
    ensures |r| <= |langs|
  {
    if langs == [] then []
    else (if langs[0] in Supported then [langs[0]] else []) + FilterSupported(langs[1..])
  }

  /** Filtering distributes over concatenation: the kept codes stay in input order. */
  lemma {:induction false} FilterAppend(a: seq<string>, b: seq<string>)
    ensures FilterSupported(a + b) == FilterSupported(a) + FilterSupported(b)
  {
    if a != [] {
      assert (a + b)[0] == a[0] && (a + b)[1..] == a[1..] + b;
      FilterAppend(a[1..], b);
      var head := if a[0] in Supported then [a[0]] else [];
      assert FilterSupported(a + b) == head + FilterSupported(a[1..] + b);
      assert head + (FilterSupported(a[1..]) + FilterSupported(b))
          == (head + FilterSupported(a[1..])) + FilterSupported(b);
    } else {
      assert a + b == b;
    }
  }

  /** A list of supported codes is kept as it is, so filtering is idempotent. */
  lemma {:induction false} FilterKeepsSupported(langs: seq<string>)
    requires forall x :: x in langs ==> x in Supported
    ensures FilterSupported(langs) == langs
  {
    if langs != [] {
      FilterKeepsSupported(langs[1..]);
    }
  }

  /** The list `set_languages` installs: the supported codes, or `["en"]`. */
  function ValidLanguages(langs: seq<string>): (r: seq<string>)
    ensures r != [] && forall x :: x in r ==> x in Supported
    ensures FilterSupported(langs) != [] ==> r == FilterSupported(langs)
    ensures (forall x :: x in langs ==> x !in Supported) ==> r == ["en"]
  {
    var valid := FilterSupported(langs);
    assert valid != [] ==> valid[0] in valid;
    if valid == [] then ["en"] else valid
  }

  /** "zh" is not a supported code: it never survives, and alone it falls back to English. */
  lemma ChineseDropped(langs: seq<string>)
    ensures "zh" !in ValidLanguages(langs)
    ensures ValidLanguages(["zh"]) == ["en"]
  {
    assert "zh" != "en" by { assert "zh"[0] != "en"[0]; }
  }

  function Elements(s: seq<string>): set<string> {
    set x | x in s
  }

  // ---- Recognition result ----

  datatype Point = Point(x: int, y: int)

  /** One reader detection; `confident` abstracts `conf >= 0.3`. */
  datatype Detection = Detection(polygon: seq<Point>, text: string, confident: bool)

  /** The reader either raises or returns its detections. */
  datatype ReaderOutput = ReaderFailed | Read(detections: seq<Detection>)

  /** `(min x, min y, max x, max y)`. */
  datatype Box = Box(x0: int, y0: int, x1: int, y1: int)

  /** `OCRResult` without its float confidence and timing. */
  datatype OcrResult = OcrResult(text: string, boxes: seq<Box>)

  function MinOf(s: seq<int>): (r: int)
    requires s != []
    ensures r in s && forall x :: x in s ==> r <= x
  {
    if |s| == 1 then s[0]
    else
      var m := MinOf(s[1..]);
      assert forall x :: x in s ==> x == s[0] || x in s[1..];
      if s[0] <= m then s[0] else m
  }

  function MaxOf(s: seq<int>): (r: int)
    requires s != []
    ensures r in s && forall x :: x in s ==> x <= r
  {
    if |s| == 1 then s[0]
    else
      var m := MaxOf(s[1..]);
      assert forall x :: x in s ==> x == s[0] || x in s[1..];
      if s[0] >= m then s[0] else m
  }

  /** The bounding box of a polygon: the least box holding every point,
      each of whose sides touches a point. */
  function BoxOf(poly: seq<Point>): (b: Box)
    requires poly != []
    ensures b.x0 <= b.x1 && b.y0 <= b.y1
    ensures forall p :: p in poly ==> b.x0 <= p.x <= b.x1 && b.y0 <= p.y <= b.y1
    ensures (exists p :: p in poly && p.x == b.x0) && (exists p :: p in poly && p.x == b.x1)
    ensures (exists p :: p in poly && p.y == b.y0) && (exists p :: p in poly && p.y == b.y1)
  {
    var xs := seq(|poly|, i requires 0 <= i < |poly| => poly[i].x);
    var ys := seq(|poly|, i requires 0 <= i < |poly| => poly[i].y);
    assert forall p :: p in poly ==> p.x in xs && p.y in ys by {
      forall p | p in poly ensures p.x in xs && p.y in ys {
        var i :| 0 <= i < |poly| && poly[i] == p;
        assert xs[i] == p.x && ys[i] == p.y;
      }
    }
    var b := Box(MinOf(xs), MinOf(ys), MaxOf(xs), MaxOf(ys));
    assert exists i :: 0 <= i < |xs| && xs[i] == b.x0;
    assert exists i :: 0 <= i < |xs| && xs[i] == b.x1;
    assert exists i :: 0 <= i < |ys| && ys[i] == b.y0;
    assert exists i :: 0 <= i < |ys| && ys[i] == b.y1;
    b
  }

  /** The texts of the confident detections, in reader order. */
  function KeptTexts(ds: seq<Detection>): seq<string> {
    if ds == [] then []
    else KeptTexts(ds[..|ds| - 1]) + (if ds[|ds| - 1].confident then [ds[|ds| - 1].text] else [])
  }

  /** The boxes of the confident detections that have a polygon, in reader order. */
  function KeptBoxes(ds: seq<Detection>): seq<Box> {
    if ds == [] then []
    else
      var d := ds[|ds| - 1];
      KeptBoxes(ds[..|ds| - 1]) + (if d.confident && d.polygon != [] then [BoxOf(d.polygon)] else [])
  }

  /** Every reported box is normalised, and there is at most one per kept text. */
  lemma {:induction false} KeptBoxesNormalised(ds: seq<Detection>)
    ensures forall b :: b in KeptBoxes(ds) ==> b.x0 <= b.x1 && b.y0 <= b.y1
    ensures |KeptBoxes(ds)| <= |KeptTexts(ds)|
  {
    if ds != [] {
      KeptBoxesNormalised(ds[..|ds| - 1]);
    }
  }

  /** A detection below the confidence bar contributes neither text nor box. */
  lemma UnconfidentIgnored(ds: seq<Detection>, d: Detection)
    requires !d.confident
    ensures KeptTexts(ds + [d]) == KeptTexts(ds) && KeptBoxes(ds + [d]) == KeptBoxes(ds)
  {
    assert (ds + [d])[..|ds + [d]| - 1] == ds;
  }

  /** What `process_image` returns for the reader's output. */
  function Recognised(out: ReaderOutput): OcrResult {
    match out
    case ReaderFailed => OcrResult("", [])
    case Read(ds) => OcrResult(Join(" ", KeptTexts(ds)), KeptBoxes(ds))
  }

  /** The prefix of `OCR başlatma hatası` raised when the reader cannot be built. */
  const InitErrorPrefix := "OCR başlatma hatası: "

  /** The fixed message of the `ImportError` re-raised when EasyOCR is missing. */
  const NotInstalledMessage := "EasyOCR yüklü değil. " + "'pip install easyocr' ile yükleyin."

  /** Why building the reader failed: an `ImportError` (EasyOCR or one of its
      imports is missing), or any other exception with its message. */
  datatype InitFailure = NotInstalled | Failed(msg: string)

  /** The message `_init_reader` raises for a failure: the fixed install
      hint for an `ImportError`, the prefixed message for anything else. */
  function InitFailureMessage(f: InitFailure): (m: string)
    ensures f.NotInstalled? ==> m == NotInstalledMessage
    ensures f.Failed? ==> |InitErrorPrefix| <= |m| && m[..|InitErrorPrefix|] == InitErrorPrefix
                          && m[|InitErrorPrefix|..] == f.msg
  {
    match f
    case NotInstalled => NotInstalledMessage
    case Failed(e) => InitErrorPrefix + e
  }

  /** The two kinds of failure can be told apart by their message: only an
      `ImportError` gives the install hint, and it never carries the prefix. */
  lemma InitFailureDistinguished(f: InitFailure)
    ensures InitFailureMessage(f) == NotInstalledMessage <==> f.NotInstalled?
    ensures f.NotInstalled? ==> !(InitErrorPrefix <= InitFailureMessage(f))
  {
    assert NotInstalledMessage[0] == 'E';
    assert InitErrorPrefix[0] == 'O';
    match f {
      case NotInstalled =>
        assert InitFailureMessage(f)[0] != InitErrorPrefix[0];
      case Failed(e) =>
        assert InitFailureMessage(f)[0] != NotInstalledMessage[0];
    }
  }

  class OcrEngine {
    var config: OcrConfig
    var initialized: bool

    /** `OCREngine(config)`; no configuration means the defaults. */
    constructor (c: Option<OcrConfig>)
      ensures config == c.GetOr(DefaultOcrConfig()) && !initialized
    {
      config := c.GetOr(DefaultOcrConfig());
      initialized := false;
    }

    /** `set_languages`: the supported codes (or English) replace the list,
        and force reinitialisation, only when they form a different set. */
    method SetLanguages(langs: seq<string>)
      modifies this
      ensures var valid := ValidLanguages(langs);
              if Elements(valid) != Elements(old(config.languages))
              then config == old(config).(languages := valid) && !initialized
              else config == old(config) && initialized == old(initialized)
      ensures Elements(config.languages) == Elements(ValidLanguages(langs))
    {
      var valid := ValidLanguages(langs);
      if Elements(valid) != Elements(config.languages) {
        config := config.(languages := valid);
        initialized := false;
      }
    }

    function GetLanguages(): seq<string>
      reads this
    {
      config.languages
    }

    method SetSpeed(s: Speed)
      modifies this
      ensures config == old(config).(speed := s) && initialized == old(initialized)
    {
      config := config.(speed := s);
    }

    function GetSpeed(): Speed
      reads this
    {
      config.speed
    }

    /** `enable_gpu`: a change of the flag forces reinitialisation. */
    method EnableGpu(enabled: bool)
      modifies this
      ensures config == old(config).(gpuEnabled := enabled)
      ensures initialized == (old(initialized) && enabled == old(config.gpuEnabled))
    {
      if enabled != config.gpuEnabled {
        config := config.(gpuEnabled := enabled);
        initialized := false;
      }
    }

    function IsGpuEnabled(): bool
      reads this
    {
      config.gpuEnabled
    }

    function IsInitialized(): bool
      reads this
    {
      initialized
    }

    function GetConfig(): OcrConfig
      reads this
    {
      config
    }

    /** `_init_reader`: building the reader either succeeds and marks the
        engine initialised, or raises; `initError` is the library's failure,
        if any. */
    method InitReader(initError: Option<InitFailure>) returns (err: Option<string>)
      modifies this
      ensures config == old(config)
      ensures initError.None? ==> err == None && initialized
      ensures initError.Some? ==> err == Some(InitFailureMessage(initError.value)) && initialized == old(initialized)
    {
      if initError.Some? {
        match initError.value {
          case NotInstalled =>
            return Some(NotInstalledMessage);
          case Failed(e) =>
            return Some(InitErrorPrefix + e);
        }
      }
      initialized := true;
      err := None;
    }

    /** `process_image`. An uninitialised engine first builds its reader,
        whose exception propagates. Afterwards the reader's detections are
        assembled; a reader exception gives an empty result. */
    method ProcessImage(initError: Option<InitFailure>, out: ReaderOutput) returns (r: Result<OcrResult, string>)
      modifies this
      ensures config == old(config)
      ensures !old(initialized) && initError.Some? ==> r == Err(InitFailureMessage(initError.value)) && !initialized
      ensures old(initialized) || initError.None? ==> r == Ok(Recognised(out)) && initialized
    {
      if !initialized {
        var err := InitReader(initError);
        if err.Some? {
          return Err(err.value);
        }
      }
      match out {
        case ReaderFailed =>
          r := Ok(OcrResult("", []));
        case Read(ds) =>
          var texts: seq<string> := [];
          var boxes: seq<Box> := [];
          for i := 0 to |ds|
            invariant texts == KeptTexts(ds[..i])
            invariant boxes == KeptBoxes(ds[..i])
          {
            assert ds[..i + 1][..i] == ds[..i];
            var d := ds[i];
            if d.confident {
              texts := texts + [d.text];
              if d.polygon != [] {
                boxes := boxes + [BoxOf(d.polygon)];
              }
            }
          }
          assert ds[..|ds|] == ds;
          r := Ok(OcrResult(Join(" ", texts), boxes));
      }
    }
  }

  /** `set_speed(s)` then `get_speed()` gives `s`; `get_languages` after
      `set_languages` has exactly the surviving codes. */
  method SetThenGet(e: OcrEngine, s: Speed, langs: seq<string>) returns (speed: Speed, got: seq<string>)
    modifies e
    ensures speed == s
    ensures forall x :: x in got <==> x in ValidLanguages(langs)
  {
    e.SetSpeed(s);
    e.SetLanguages(langs);
    speed := e.GetSpeed();
    got := e.GetLanguages();
    assert forall x :: x in got <==> x in Elements(got);
  }

  /** Enabling the GPU twice reinitialises at most once: the second call
      with the same value changes nothing. */
  method EnableGpuIdempotent(e: OcrEngine, b: bool)
    modifies e
    ensures e.config == old(e.config).(gpuEnabled := b)
    ensures e.initialized == (old(e.initialized) && b == old(e.config.gpuEnabled))
  {
    e.EnableGpu(b);
    ghost var mid := e.initialized;
    e.EnableGpu(b);
    assert e.initialized == mid;
  }
}
