/** The application configuration: typed settings records, their
    conversion to and from the JSON dictionary stored on disk, the
    defaulting of missing keys, keyword updates restricted to existing
    attributes, and the manager that holds the current configuration and
    the stored file. */
module Config {
  import opened Wrappers
  import opened Json

  /** `OCRConfig`. */
  datatype OcrSettings = OcrSettings(speed: string, gpuEnabled: bool, languages: seq<string>,
                                     confidenceThreshold: real)

  /** `TranslationConfig`. */
  datatype TranslationSettings = TranslationSettings(provider: string, sourceLanguage: string,
                                                     targetLanguage: string, apiKeys: map<string, string>)

  /** `OverlayPosition`. */
  datatype Position = Position(x: int, y: int)

  /** `OverlayConfig`. */
  datatype OverlaySettings = OverlaySettings(opacity: real, fontSize: int, fontFamily: string,
                                             backgroundBlur: bool, glowEffect: bool, textShadow: bool,
                                             bold: bool, italic: bool, textColor: string, bgColor: string,
                                             glowColor: string, position: Position)

  /** `SystemConfig`: exclusion areas are kept as raw dictionaries. */
  datatype SystemSettings = SystemSettings(cacheEnabled: bool, selectedMonitor: int, exclusionAreas: seq<Value>)

  /** `RegionConfig`. */
  datatype RegionSettings = RegionSettings(x: int, y: int, width: int, height: int, monitorId: int,
                                           name: string, enabled: bool)

  /** `RegionsConfig`: each region is kept as a raw dictionary. */
  datatype RegionsSettings = RegionsSettings(regions: seq<Value>)

  datatype AppConfig = AppConfig(ocr: OcrSettings, translation: TranslationSettings, overlay: OverlaySettings,
                                 system: SystemSettings, region: RegionSettings, regions: RegionsSettings)

  const EmptyApiKeys: map<string, string> := map["chatgpt" := "", "gemini" := "", "google" := "", "deepl" := ""]
  const DefaultPosition: Position := Position(100, 100)

  /** The dataclass defaults, `create_default_config()`. */
  function DefaultConfig(): AppConfig {
    AppConfig(OcrSettings("normal", true, ["en"], 0.7),
              TranslationSettings("gemini", "en", "tr", EmptyApiKeys),
              OverlaySettings(0.85, 16, "Segoe UI", true, false, true, false, false,
                              "#ffffff", "#000000", "#00d4ff", DefaultPosition),
              SystemSettings(true, 0, []),
              RegionSettings(0, 0, 800, 600, 0, "", true),
              RegionsSettings([]))
  }

  /** The defaults `_dict_to_config` fills in for missing keys; they agree
      with the dataclass defaults except for the OCR languages. */
  function DecodeDefaults(): AppConfig {
    DefaultConfig().(ocr := DefaultConfig().ocr.(languages := ["en", "ja", "ko", "zh"]))
  }

  // ---- JSON helpers for list- and dict-valued fields ----

  function StrArr(ss: seq<string>): Value {
    JArr(seq(|ss|, i requires 0 <= i < |ss| => JStr(ss[i])))
  }

  /** The strings of an array of JSON strings; None when an item is not a string. */
  function StrItems(items: seq<Value>): Option<seq<string>> {
    if items == [] then Some([])
    else if !items[0].JStr? then None
    else match StrItems(items[1..])
         case None => None
         case Some(rest) => Some([items[0].s] + rest)
  }

  lemma {:induction false} StrItemsRoundTrip(ss: seq<string>)
    ensures StrItems(StrArr(ss).items) == Some(ss)
  {
    if ss != [] {
      assert StrArr(ss).items[1..] == StrArr(ss[1..]).items;
      StrItemsRoundTrip(ss[1..]);
      assert [ss[0]] + ss[1..] == ss;
    }
  }

  function GetStrList(d: Object, key: string, default: seq<string>): seq<string> {
    if key in d && d[key].JArr? && StrItems(d[key].items).Some? then StrItems(d[key].items).value else default
  }

  function StrMap(m: map<string, string>): Value {
    JObj(map k | k in m :: JStr(m[k]))
  }

  function GetStrMap(d: Object, key: string, default: map<string, string>): map<string, string> {
    if key in d && d[key].JObj? && forall k :: k in d[key].fields ==> d[key].fields[k].JStr?
    then map k | k in d[key].fields :: d[key].fields[k].s
    else default
  }

  // ---- Sections ----

  const OcrKeys: set<string> := {"speed", "gpu_enabled", "languages", "confidence_threshold"}

  function OcrToDict(o: OcrSettings): (d: Object)
    ensures d.Keys == OcrKeys
  {
    map["speed" := JStr(o.speed), "gpu_enabled" := JBool(o.gpuEnabled), "languages" := StrArr(o.languages),
        "confidence_threshold" := JReal(o.confidenceThreshold)]
  }

  /** The OCR section read from `d`, with `base` for missing keys. */
  function OcrFrom(d: Object, base: OcrSettings): OcrSettings {
    OcrSettings(GetStr(d, "speed", base.speed), GetBool(d, "gpu_enabled", base.gpuEnabled),
                GetStrList(d, "languages", base.languages),
                GetReal(d, "confidence_threshold", base.confidenceThreshold))
  }

  const TranslationKeys: set<string> := {"provider", "source_language", "target_language", "api_keys"}

  function TranslationToDict(t: TranslationSettings): (d: Object)
    ensures d.Keys == TranslationKeys
  {
    map["provider" := JStr(t.provider), "source_language" := JStr(t.sourceLanguage),
        "target_language" := JStr(t.targetLanguage), "api_keys" := StrMap(t.apiKeys)]
  }

  function TranslationFrom(d: Object, base: TranslationSettings): TranslationSettings {
    TranslationSettings(GetStr(d, "provider", base.provider), GetStr(d, "source_language", base.sourceLanguage),
                        GetStr(d, "target_language", base.targetLanguage), GetStrMap(d, "api_keys", base.apiKeys))
  }

  function PositionToDict(p: Position): Object {
    map["x" := JInt(p.x), "y" := JInt(p.y)]
  }

  /** `OverlayPosition(x=d.get("x", 100), y=d.get("y", 100))`. */
  function PositionFrom(d: Object): Position {
    Position(GetInt(d, "x", 100), GetInt(d, "y", 100))
  }

  const OverlayKeys: set<string> := {"opacity", "font_size", "font_family", "background_blur", "glow_effect",
                                     "text_shadow", "bold", "italic", "text_color", "bg_color", "glow_color",
                                     "position"}

  function OverlayToDict(o: OverlaySettings): (d: Object)
    ensures d.Keys == OverlayKeys
  {
    map["opacity" := JReal(o.opacity), "font_size" := JInt(o.fontSize), "font_family" := JStr(o.fontFamily),
        "background_blur" := JBool(o.backgroundBlur), "glow_effect" := JBool(o.glowEffect),
        "text_shadow" := JBool(o.textShadow), "bold" := JBool(o.bold), "italic" := JBool(o.italic),
        "text_color" := JStr(o.textColor), "bg_color" := JStr(o.bgColor), "glow_color" := JStr(o.glowColor),
        "position" := JObj(PositionToDict(o.position))]
  }

  /** The overlay section read from `d`; a `position` object is read as a
      fresh `OverlayPosition`, anything else keeps `base`'s position. */
  function OverlayFrom(d: Object, base: OverlaySettings): OverlaySettings {
    OverlaySettings(GetReal(d, "opacity", base.opacity), GetInt(d, "font_size", base.fontSize),
                    GetStr(d, "font_family", base.fontFamily), GetBool(d, "background_blur", base.backgroundBlur),
                    GetBool(d, "glow_effect", base.glowEffect), GetBool(d, "text_shadow", base.textShadow),
                    GetBool(d, "bold", base.bold), GetBool(d, "italic", base.italic),
                    GetStr(d, "text_color", base.textColor), GetStr(d, "bg_color", base.bgColor),
                    GetStr(d, "glow_color", base.glowColor),
                    if "position" in d && d["position"].JObj? then PositionFrom(d["position"].fields)
                    else base.position)
  }

  const SystemKeys: set<string> := {"cache_enabled", "selected_monitor", "exclusion_areas"}

  function SystemToDict(s: SystemSettings): (d: Object)
    ensures d.Keys == SystemKeys
  {
    map["cache_enabled" := JBool(s.cacheEnabled), "selected_monitor" := JInt(s.selectedMonitor),
        "exclusion_areas" := JArr(s.exclusionAreas)]
  }

  function SystemFrom(d: Object, base: SystemSettings): SystemSettings {
    SystemSettings(GetBool(d, "cache_enabled", base.cacheEnabled), GetInt(d, "selected_monitor", base.selectedMonitor),
                   GetArr(d, "exclusion_areas", base.exclusionAreas))
  }

  const RegionKeys: set<string> := {"x", "y", "width", "height", "monitor_id", "name", "enabled"}

  function RegionToDict(r: RegionSettings): (d: Object)
    ensures d.Keys == RegionKeys
  {
    map["x" := JInt(r.x), "y" := JInt(r.y), "width" := JInt(r.width), "height" := JInt(r.height),
        "monitor_id" := JInt(r.monitorId), "name" := JStr(r.name), "enabled" := JBool(r.enabled)]
  }

  function RegionFrom(d: Object, base: RegionSettings): RegionSettings {
    RegionSettings(GetInt(d, "x", base.x), GetInt(d, "y", base.y), GetInt(d, "width", base.width),
                   GetInt(d, "height", base.height), GetInt(d, "monitor_id", base.monitorId),
                   GetStr(d, "name", base.name), GetBool(d, "enabled", base.enabled))
  }

  /** `_config_to_dict`. */
  function ConfigToDict(c: AppConfig): Value {
    JObj(map["ocr" := JObj(OcrToDict(c.ocr)), "translation" := JObj(TranslationToDict(c.translation)),
             "overlay" := JObj(OverlayToDict(c.overlay)), "system" := JObj(SystemToDict(c.system)),
             "region" := JObj(RegionToDict(c.region)), "regions" := JObj(map["regions" := JArr(c.regions.regions)])])
  }

  /** `data.get(name, {})`: a missing section reads as empty; a section that
      is not an object makes the following `.get` raise. */
  function Section(d: Object, name: string): Result<Object, string> {
    if name !in d then Ok(map[])
    else if d[name].JObj? then Ok(d[name].fields)
    else Err("'" + name + "' is not a dictionary")
  }

  /** `_dict_to_config`. */
  function DictToConfig(data: Value): (r: Result<AppConfig, string>)
    ensures r.Ok? ==> data.JObj?
  {
    if !data.JObj? then Err("configuration is not a dictionary")
    else DecodeSections(data.fields, DecodeDefaults())
  }

  /** The sections of `d` read over `base`; the first section that is not
      a dictionary is the error. */
  function DecodeSections(d: Object, base: AppConfig): Result<AppConfig, string> {
      var ocr := Section(d, "ocr");
      var tr := Section(d, "translation");
      var ov := Section(d, "overlay");
      var sy := Section(d, "system");
      var rg := Section(d, "region");
      var rs := Section(d, "regions");
      if ocr.Err? then Err(ocr.error)
      else if tr.Err? then Err(tr.error)
      else if ov.Err? then Err(ov.error)
      else
        var pos := Section(ov.value, "position");
        if pos.Err? then Err(pos.error)
        else if sy.Err? then Err(sy.error)
        else if rg.Err? then Err(rg.error)
        else if rs.Err? then Err(rs.error)
        else Ok(AppConfig(OcrFrom(ocr.value, base.ocr), TranslationFrom(tr.value, base.translation),
                          OverlayFrom(ov.value, base.overlay), SystemFrom(sy.value, base.system),
                          RegionFrom(rg.value, base.region),
                          RegionsSettings(GetArr(rs.value, "regions", base.regions.regions))))
  }

  // ---- Round trip and defaults ----

  /** Each section's dictionary reads back as the section, whatever the base. */
  lemma OcrRoundTrip(o: OcrSettings, b: OcrSettings)
    ensures OcrFrom(OcrToDict(o), b) == o
  {
    StrItemsRoundTrip(o.languages);
    var d := OcrToDict(o);
    assert d["languages"] == StrArr(o.languages);
  }

  lemma TranslationRoundTrip(t: TranslationSettings, b: TranslationSettings)
    ensures TranslationFrom(TranslationToDict(t), b) == t
  {
    var d := TranslationToDict(t);
    assert d["api_keys"] == StrMap(t.apiKeys);
    assert GetStrMap(d, "api_keys", b.apiKeys) == t.apiKeys;
  }

  lemma OverlayRoundTrip(o: OverlaySettings, b: OverlaySettings)
    ensures OverlayFrom(OverlayToDict(o), b) == o
  {
    var d := OverlayToDict(o);
    assert d["opacity"] == JReal(o.opacity) && d["font_size"] == JInt(o.fontSize);
    assert d["font_family"] == JStr(o.fontFamily) && d["background_blur"] == JBool(o.backgroundBlur);
    assert d["glow_effect"] == JBool(o.glowEffect) && d["text_shadow"] == JBool(o.textShadow);
    assert d["bold"] == JBool(o.bold) && d["italic"] == JBool(o.italic);
    assert d["text_color"] == JStr(o.textColor) && d["bg_color"] == JStr(o.bgColor);
    assert d["glow_color"] == JStr(o.glowColor) && d["position"] == JObj(PositionToDict(o.position));
  }

  lemma SystemRoundTrip(s: SystemSettings, b: SystemSettings)
    ensures SystemFrom(SystemToDict(s), b) == s
  {
  }

  lemma RegionRoundTrip(r: RegionSettings, b: RegionSettings)
    ensures RegionFrom(RegionToDict(r), b) == r
  {
    var d := RegionToDict(r);
    assert d["x"] == JInt(r.x) && d["y"] == JInt(r.y) && d["width"] == JInt(r.width);
    assert d["height"] == JInt(r.height) && d["monitor_id"] == JInt(r.monitorId);
    assert d["name"] == JStr(r.name) && d["enabled"] == JBool(r.enabled);
  }

  /** `_dict_to_config(_config_to_dict(c))` gives back `c` in every section. */
  lemma ConfigRoundTrip(c: AppConfig)
    ensures DictToConfig(ConfigToDict(c)) == Ok(c)
  {
    SectionsRoundTrip(c, DecodeDefaults());
  }

  lemma SectionsRoundTrip(c: AppConfig, base: AppConfig)
    ensures DecodeSections(ConfigToDict(c).fields, base) == Ok(c)
  {
    OcrRoundTrip(c.ocr, base.ocr);
    TranslationRoundTrip(c.translation, base.translation);
    OverlayRoundTrip(c.overlay, base.overlay);
    SystemRoundTrip(c.system, base.system);
    RegionRoundTrip(c.region, base.region);
    StoredSections(c);
    StoredPosition(c.overlay);
    var rs := map["regions" := JArr(c.regions.regions)];
    assert GetArr(rs, "regions", base.regions.regions) == c.regions.regions;
    DecodeObjects(ConfigToDict(c).fields, base, OcrToDict(c.ocr), TranslationToDict(c.translation),
                  OverlayToDict(c.overlay), SystemToDict(c.system), RegionToDict(c.region), rs);
  }

  /** When every section is a dictionary (and so is the overlay's position),
      decoding reads each section over the base. */
  lemma DecodeObjects(d: Object, base: AppConfig, oc: Object, tr: Object, ov: Object, sy: Object, rg: Object,
                      rs: Object)
    requires Section(d, "ocr") == Ok(oc) && Section(d, "translation") == Ok(tr)
    requires Section(d, "overlay") == Ok(ov) && Section(ov, "position").Ok?
    requires Section(d, "system") == Ok(sy) && Section(d, "region") == Ok(rg) && Section(d, "regions") == Ok(rs)
    ensures DecodeSections(d, base)
            == Ok(AppConfig(OcrFrom(oc, base.ocr), TranslationFrom(tr, base.translation),
                            OverlayFrom(ov, base.overlay), SystemFrom(sy, base.system), RegionFrom(rg, base.region),
                            RegionsSettings(GetArr(rs, "regions", base.regions.regions))))
  {
  }

  /** `_config_to_dict` stores each section as a dictionary under its name. */
  lemma StoredSections(c: AppConfig)
    ensures Section(ConfigToDict(c).fields, "ocr") == Ok(OcrToDict(c.ocr))
    ensures Section(ConfigToDict(c).fields, "translation") == Ok(TranslationToDict(c.translation))
    ensures Section(ConfigToDict(c).fields, "overlay") == Ok(OverlayToDict(c.overlay))
    ensures Section(ConfigToDict(c).fields, "system") == Ok(SystemToDict(c.system))
    ensures Section(ConfigToDict(c).fields, "region") == Ok(RegionToDict(c.region))
    ensures Section(ConfigToDict(c).fields, "regions") == Ok(map["regions" := JArr(c.regions.regions)])
  {
  }

  lemma StoredPosition(o: OverlaySettings)
    ensures Section(OverlayToDict(o), "position") == Ok(PositionToDict(o.position))
  {
    assert OverlayToDict(o)["position"] == JObj(PositionToDict(o.position));
  }

  /** An empty dictionary decodes to the decoding defaults, which are not the
      dataclass defaults: the OCR languages differ. */
  lemma EmptyDictDefaults()
    ensures DictToConfig(JObj(map[])) == Ok(DecodeDefaults())
    ensures DecodeDefaults() != DefaultConfig()
    ensures DecodeDefaults().ocr.languages == ["en", "ja", "ko", "zh"] && DefaultConfig().ocr.languages == ["en"]
    ensures DecodeDefaults().translation.provider == "gemini" && DecodeDefaults().overlay.position == Position(100, 100)
  {
    var b := DecodeDefaults();
    var e: Object := map[];
    DecodeObjects(e, b, e, e, e, e, e, e);
    EmptyReadsBase(b);
    assert b.ocr.languages != DefaultConfig().ocr.languages by {
      assert |b.ocr.languages| == 4;
    }
  }

  /** Every section read from an empty dictionary is its base. */
  lemma EmptyReadsBase(b: AppConfig)
    ensures OcrFrom(map[], b.ocr) == b.ocr && TranslationFrom(map[], b.translation) == b.translation
    ensures OverlayFrom(map[], b.overlay) == b.overlay && SystemFrom(map[], b.system) == b.system
    ensures RegionFrom(map[], b.region) == b.region
    ensures RegionsSettings(GetArr(map[], "regions", b.regions.regions)) == b.regions
  {
  }

  /** A section that is present but not an object is an error. */
  lemma NonObjectSectionFails(d: Object, name: string)
    requires name in {"ocr", "translation", "overlay", "system", "region", "regions"}
    requires name in d && !d[name].JObj?
    ensures DictToConfig(JObj(d)).Err?
  {
  }

  /** Keyword updates consider only attribute names: other keys are ignored. */
  lemma UpdatesIgnoreOtherKeys(d: Object, extra: Object, c: AppConfig)
    requires extra.Keys !! (OcrKeys + TranslationKeys + OverlayKeys + SystemKeys + RegionKeys)
    ensures OcrFrom(d + extra, c.ocr) == OcrFrom(d, c.ocr)
    ensures TranslationFrom(d + extra, c.translation) == TranslationFrom(d, c.translation)
    ensures OverlayFrom(d + extra, c.overlay) == OverlayFrom(d, c.overlay)
    ensures RegionFrom(d + extra, c.region) == RegionFrom(d, c.region)
  {
    OcrIgnoresOtherKeys(d, extra, c.ocr);
    TranslationIgnoresOtherKeys(d, extra, c.translation);
    OverlayIgnoresOtherKeys(d, extra, c.overlay);
    RegionIgnoresOtherKeys(d, extra, c.region);
  }

  lemma OcrIgnoresOtherKeys(d: Object, extra: Object, b: OcrSettings)
    requires extra.Keys !! OcrKeys
    ensures OcrFrom(d + extra, b) == OcrFrom(d, b)
  {
    assert "languages" !in extra;
  }

  lemma TranslationIgnoresOtherKeys(d: Object, extra: Object, b: TranslationSettings)
    requires extra.Keys !! TranslationKeys
    ensures TranslationFrom(d + extra, b) == TranslationFrom(d, b)
  {
    assert "api_keys" !in extra;
  }

  lemma OverlayIgnoresOtherKeys(d: Object, extra: Object, b: OverlaySettings)
    requires extra.Keys !! OverlayKeys
    ensures OverlayFrom(d + extra, b) == OverlayFrom(d, b)
  {
    assert "position" !in extra;
  }

  lemma RegionIgnoresOtherKeys(d: Object, extra: Object, b: RegionSettings)
    requires extra.Keys !! RegionKeys
    ensures RegionFrom(d + extra, b) == RegionFrom(d, b)
  {
  }

  /** An update with no keywords changes nothing. */
  lemma EmptyUpdateIsIdentity(c: AppConfig)
    ensures OcrFrom(map[], c.ocr) == c.ocr && TranslationFrom(map[], c.translation) == c.translation
    ensures OverlayFrom(map[], c.overlay) == c.overlay && RegionFrom(map[], c.region) == c.region
  {
  }

  /** The keyword loop: `setattr` for each keyword in turn. `spec` is the
      result of applying a whole keyword dictionary at once, and `step` one
      keyword; applying one more keyword is `step`. */
  method ApplyKeywords<S>(base: S, kwargs: Object, step: (S, string, Value) -> S, ghost spec: Object -> S)
      returns (s: S)
    requires spec(map[]) == base
    requires forall m: Object, k: string, v: Value :: k !in m ==> spec(m[k := v]) == step(spec(m), k, v)
    ensures s == spec(kwargs)
  {
    s := base;
    var rest := kwargs.Keys;
    ghost var done: set<string> := {};
    while rest != {}
      invariant rest + done == kwargs.Keys && rest !! done
      invariant s == spec(map k | k in done :: kwargs[k])
      decreases |rest|
    {
      var k :| k in rest;
      ghost var before := map j | j in done :: kwargs[j];
      assert (map j | j in done + {k} :: kwargs[j]) == before[k := kwargs[k]];
      s := step(s, k, kwargs[k]);
      done, rest := done + {k}, rest - {k};
    }
    assert (map k | k in done :: kwargs[k]) == kwargs;
  }

  /** Setting one more attribute composes with the ones already set: for each
      typed read, reading from `m[k := v]` is reading `k` alone on top of `m`. */
  lemma ReadSteps(m: Object, k: string, v: Value, f: string)
    requires k !in m
    ensures forall b :: GetInt(m[k := v], f, b) == GetInt(map[k := v], f, GetInt(m, f, b))
    ensures forall b :: GetBool(m[k := v], f, b) == GetBool(map[k := v], f, GetBool(m, f, b))
    ensures forall b :: GetStr(m[k := v], f, b) == GetStr(map[k := v], f, GetStr(m, f, b))
    ensures forall b :: GetReal(m[k := v], f, b) == GetReal(map[k := v], f, GetReal(m, f, b))
    ensures forall b :: GetArr(m[k := v], f, b) == GetArr(map[k := v], f, GetArr(m, f, b))
    ensures forall b :: GetStrList(m[k := v], f, b) == GetStrList(map[k := v], f, GetStrList(m, f, b))
    ensures forall b :: GetStrMap(m[k := v], f, b) == GetStrMap(map[k := v], f, GetStrMap(m, f, b))
  {
    if f == k {
      assert m[k := v][f] == map[k := v][f];
    }
  }

  lemma BoolStep(m: Object, k: string, v: Value, f: string, b: bool)
    requires k !in m
    ensures GetBool(m[k := v], f, b) == GetBool(map[k := v], f, GetBool(m, f, b))
  {
    ReadSteps(m, k, v, f);
  }

  lemma StrStep(m: Object, k: string, v: Value, f: string, b: string)
    requires k !in m
    ensures GetStr(m[k := v], f, b) == GetStr(map[k := v], f, GetStr(m, f, b))
  {
    ReadSteps(m, k, v, f);
  }

  lemma OcrStep(m: Object, k: string, v: Value, b: OcrSettings)
    requires k !in m
    ensures OcrFrom(m[k := v], b) == OcrFrom(map[k := v], OcrFrom(m, b))
  {
    ReadSteps(m, k, v, "speed");
    ReadSteps(m, k, v, "gpu_enabled");
    ReadSteps(m, k, v, "languages");
    ReadSteps(m, k, v, "confidence_threshold");
  }

  lemma TranslationStep(m: Object, k: string, v: Value, b: TranslationSettings)
    requires k !in m
    ensures TranslationFrom(m[k := v], b) == TranslationFrom(map[k := v], TranslationFrom(m, b))
  {
    ReadSteps(m, k, v, "provider");
    ReadSteps(m, k, v, "source_language");
    ReadSteps(m, k, v, "target_language");
    ReadSteps(m, k, v, "api_keys");
  }

  lemma OverlayStep(m: Object, k: string, v: Value, b: OverlaySettings)
    requires k !in m
    ensures OverlayFrom(m[k := v], b) == OverlayFrom(map[k := v], OverlayFrom(m, b))
  {
    var one, all := OverlayFrom(map[k := v], OverlayFrom(m, b)), OverlayFrom(m[k := v], b);
    ReadSteps(m, k, v, "opacity");
    ReadSteps(m, k, v, "font_size");
    StrStep(m, k, v, "font_family", b.fontFamily);
    BoolStep(m, k, v, "background_blur", b.backgroundBlur);
    BoolStep(m, k, v, "glow_effect", b.glowEffect);
    BoolStep(m, k, v, "text_shadow", b.textShadow);
    BoolStep(m, k, v, "bold", b.bold);
    BoolStep(m, k, v, "italic", b.italic);
    StrStep(m, k, v, "text_color", b.textColor);
    StrStep(m, k, v, "bg_color", b.bgColor);
    StrStep(m, k, v, "glow_color", b.glowColor);
    if k == "position" {
      assert m[k := v]["position"] == map[k := v]["position"];
    } else {
      assert ("position" in m[k := v]) == ("position" in m);
    }
    assert one.position == all.position;
  }

  lemma RegionStep(m: Object, k: string, v: Value, b: RegionSettings)
    requires k !in m
    ensures RegionFrom(m[k := v], b) == RegionFrom(map[k := v], RegionFrom(m, b))
  {
    ReadSteps(m, k, v, "x");
    ReadSteps(m, k, v, "y");
    ReadSteps(m, k, v, "width");
    ReadSteps(m, k, v, "height");
    ReadSteps(m, k, v, "monitor_id");
    ReadSteps(m, k, v, "name");
    ReadSteps(m, k, v, "enabled");
  }

  /** What is on disk: nothing, something that does not parse, or a JSON value. */
  datatype ConfigFile = Missing | Unparseable | Stored(data: Value)

  /** Which section an `update_*` call targets. */
  datatype Target = OcrSection | TranslationSection | OverlaySection | RegionSection

  /** The configuration with keyword arguments applied to one section. */
  function Updated(c: AppConfig, target: Target, kwargs: Object): AppConfig {
    match target
    case OcrSection => c.(ocr := OcrFrom(kwargs, c.ocr))
    case TranslationSection => c.(translation := TranslationFrom(kwargs, c.translation))
    case OverlaySection => c.(overlay := OverlayFrom(kwargs, c.overlay))
    case RegionSection => c.(region := RegionFrom(kwargs, c.region))
  }

  /** The keyword loop of `update_ocr`. */
  method UpdateOcr(o: OcrSettings, kwargs: Object) returns (s: OcrSettings)
    ensures s == OcrFrom(kwargs, o)
  {
    forall m: Object, k: string, v: Value | k !in m
      ensures OcrFrom(m[k := v], o) == OcrFrom(map[k := v], OcrFrom(m, o)) {
      OcrStep(m, k, v, o);
    }
    s := ApplyKeywords(o, kwargs, (s, k, v) => OcrFrom(map[k := v], s), m => OcrFrom(m, o));
  }

  /** The keyword loop of `update_translation`. */
  method UpdateTranslation(t: TranslationSettings, kwargs: Object) returns (s: TranslationSettings)
    ensures s == TranslationFrom(kwargs, t)
  {
    forall m: Object, k: string, v: Value | k !in m
      ensures TranslationFrom(m[k := v], t) == TranslationFrom(map[k := v], TranslationFrom(m, t)) {
      TranslationStep(m, k, v, t);
    }
    s := ApplyKeywords(t, kwargs, (s, k, v) => TranslationFrom(map[k := v], s), m => TranslationFrom(m, t));
  }

  /** The keyword loop of `update_overlay`. */
  method UpdateOverlay(o: OverlaySettings, kwargs: Object) returns (s: OverlaySettings)
    ensures s == OverlayFrom(kwargs, o)
  {
    forall m: Object, k: string, v: Value | k !in m
      ensures OverlayFrom(m[k := v], o) == OverlayFrom(map[k := v], OverlayFrom(m, o)) {
      OverlayStep(m, k, v, o);
    }
    s := ApplyKeywords(o, kwargs, (s, k, v) => OverlayFrom(map[k := v], s), m => OverlayFrom(m, o));
  }

  /** The keyword loop of `update_region`. */
  method UpdateRegion(r: RegionSettings, kwargs: Object) returns (s: RegionSettings)
    ensures s == RegionFrom(kwargs, r)
  {
    forall m: Object, k: string, v: Value | k !in m
      ensures RegionFrom(m[k := v], r) == RegionFrom(map[k := v], RegionFrom(m, r)) {
      RegionStep(m, k, v, r);
    }
    s := ApplyKeywords(r, kwargs, (s, k, v) => RegionFrom(map[k := v], s), m => RegionFrom(m, r));
  }

  /** The targeted section's keyword loop, on a loaded configuration. */
  method ApplyUpdate(c: AppConfig, target: Target, kwargs: Object) returns (next: AppConfig)
    ensures next == Updated(c, target, kwargs)
  {
    match target {
      case OcrSection =>
        var s := UpdateOcr(c.ocr, kwargs);
        next := c.(ocr := s);
      case TranslationSection =>
        var s := UpdateTranslation(c.translation, kwargs);
        next := c.(translation := s);
      case OverlaySection =>
        var s := UpdateOverlay(c.overlay, kwargs);
        next := c.(overlay := s);
      case RegionSection =>
        var s := UpdateRegion(c.region, kwargs);
        next := c.(region := s);
    }
  }

  class ConfigManager {
    var config: Option<AppConfig>
    var file: ConfigFile

    constructor (f: ConfigFile)
      ensures config == None && file == f
    {
      config, file := None, f;
    }

    /** What `get_config` yields in the current state. */
    function Current(): Result<AppConfig, string>
      reads this
    {
      if config.Some? then Ok(config.value)
      else match file
           case Stored(v) => DictToConfig(v)
           case _ => Ok(DefaultConfig())
    }

    /** `save`. */
    method Save(c: AppConfig)
      modifies this
      ensures config == Some(c) && file == Stored(ConfigToDict(c))
    {
      config := Some(c);
      file := Stored(ConfigToDict(c));
    }

    /** `load`: a stored file is decoded (an undecodable one raises and
        changes nothing); a missing or unparseable one is replaced by the
        defaults, which are saved. */
    method Load() returns (r: Result<AppConfig, string>)
      modifies this
      ensures file.Stored? && old(file).Stored? ==> r == DictToConfig(old(file).data)
      ensures !old(file).Stored? ==> r == Ok(DefaultConfig()) && file == Stored(ConfigToDict(DefaultConfig()))
      ensures r.Ok? ==> config == Some(r.value)
      ensures r.Err? ==> config == old(config) && file == old(file)
      ensures old(file).Stored? ==> file == old(file)
    {
      match file
      case Stored(v) =>
        r := DictToConfig(v);
        if r.Ok? {
          config := Some(r.value);
        }
      case _ =>
        r := Ok(DefaultConfig());
        Save(DefaultConfig());
    }

    /** `get_config`: the held configuration, loading it the first time. */
    method GetConfig() returns (r: Result<AppConfig, string>)
      modifies this
      ensures r == old(Current())
      ensures r.Ok? ==> config == Some(r.value)
      ensures r.Err? ==> config == old(config) && file == old(file)
      ensures old(config).Some? || old(file).Stored? ==> file == old(file)
      ensures old(config).None? && !old(file).Stored? ==> file == Stored(ConfigToDict(DefaultConfig()))
    {
      if config.Some? {
        return Ok(config.value);
      }
      r := Load();
    }

    /** `update_ocr`, `update_translation`, `update_overlay`, `update_region`:
        the keywords naming existing attributes are set on the section and
        the whole configuration is saved. None on success, else the error
        raised while loading. */
    method Update(target: Target, kwargs: Object) returns (err: Option<string>)
      modifies this
      ensures match old(Current())
              case Err(e) => err == Some(e) && config == old(config) && file == old(file)
              case Ok(c) => err == None && config == Some(Updated(c, target, kwargs))
                            && file == Stored(ConfigToDict(Updated(c, target, kwargs)))
    {
      var got := GetConfig();
      if got.Err? {
        return Some(got.error);
      }
      var next := ApplyUpdate(got.value, target, kwargs);
      Save(next);
      err := None;
    }

    /** `update_regions`. */
    method UpdateRegions(rs: seq<Value>) returns (err: Option<string>)
      modifies this
      ensures match old(Current())
              case Err(e) => err == Some(e) && config == old(config) && file == old(file)
              case Ok(c) => err == None && config == Some(c.(regions := RegionsSettings(rs)))
                            && file == Stored(ConfigToDict(c.(regions := RegionsSettings(rs))))
    {
      var got := GetConfig();
      if got.Err? {
        return Some(got.error);
      }
      Save(got.value.(regions := RegionsSettings(rs)));
      err := None;
    }

    /** `get_regions`. */
    method GetRegions() returns (r: Result<seq<Value>, string>)
      modifies this
      ensures r == match old(Current()) case Ok(c) => Ok(c.regions.regions) case Err(e) => Err(e)
    {
      var got := GetConfig();
      if got.Err? {
        return Err(got.error);
      }
      r := Ok(got.value.regions.regions);
    }
  }

  /** Decoding what `save` wrote gives back the saved configuration, so a
      fresh manager over the saved file loads the same settings. */
  method SaveThenReload(m: ConfigManager, c: AppConfig) returns (loaded: Result<AppConfig, string>)
    modifies m
    ensures loaded == Ok(c)
  {
    m.Save(c);
    ConfigRoundTrip(c);
    var reopened := new ConfigManager(m.file);
    loaded := reopened.Load();
  }

  /** `update_regions(rs)` followed by `get_regions()` returns `rs`. */
  method UpdateRegionsThenGet(m: ConfigManager, rs: seq<Value>) returns (got: Result<seq<Value>, string>)
    requires m.Current().Ok?
    modifies m
    ensures got == Ok(rs)
  {
    var _ := m.UpdateRegions(rs);
    got := m.GetRegions();
  }

  /** Without a file, the first `get_config` yields and saves the defaults. */
  method FirstLoadWithoutFile() returns (c: Result<AppConfig, string>, f: ConfigFile)
    ensures c == Ok(DefaultConfig()) && f == Stored(ConfigToDict(DefaultConfig()))
  {
    var m := new ConfigManager(Missing);
    c := m.GetConfig();
    f := m.file;
  }
}
