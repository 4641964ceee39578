/** The overlay window's non-widget state: font, position, visibility,
    styling copies, the displayed text and the one-slot mailbox through
    which worker threads hand text to the UI timer. */
module Overlay {
  import opened Wrappers

  /** `OverlayConfig` of the window. */
  datatype OverlayConfig = OverlayConfig(opacity: real, fontSize: int, fontFamily: string, backgroundEnabled: bool,
                                         glowEffect: bool, positionX: int, positionY: int, textColor: string,
                                         bgColor: string, glowColor: string)

  /** Everything an `OverlayWindow` holds, as one value. */
  datatype Display = Display(config: OverlayConfig, text: string, visible: bool,
                             bold: bool, italic: bool, textShadow: bool,
                             bgEnabled: bool, glowEnabled: bool,
                             textColor: string, bgColor: string, glowColor: string,
                             pending: Option<string>, shown: string)

  /** The state after `set_text(t)`: the text and the pending slot hold `t`. */
  function Posted(d: Display, t: string): Display {
    d.(text := t, pending := Some(t))
  }

  function DefaultOverlayConfig(): OverlayConfig {
    OverlayConfig(0.85, 24, "Segoe UI", true, false, 100, 100, "#ffffff", "#000000", "#00d4ff")
  }

  const MinFontSize := 10
  const MaxFontSize := 72

  /** `max(lo, min(hi, v))`. */
  function Clamp(lo: int, hi: int, v: int): (r: int)
    requires lo <= hi
    ensures lo <= r <= hi
    ensures lo <= v <= hi ==> r == v
    ensures v < lo ==> r == lo
    ensures hi < v ==> r == hi
  {
    if v < lo then lo else if hi < v then hi else v
  }

  /** Clamping a clamped size changes nothing. */
  lemma ClampIdempotent(lo: int, hi: int, v: int)
    requires lo <= hi
    ensures Clamp(lo, hi, Clamp(lo, hi, v)) == Clamp(lo, hi, v)
  {
  }

  class OverlayWindow {
    var config: OverlayConfig
    var text: string
    var visible: bool
    var bold: bool
    var italic: bool
    var textShadow: bool
    var bgEnabled: bool
    var glowEnabled: bool
    var textColor: string
    var bgColor: string
    var glowColor: string
    /** The text set by a worker and not yet picked up by the UI timer. */
    var pending: Option<string>
    /** What the label shows. */
    var shown: string

    /** The window's whole state; each method states its new value. */
    function State(): Display
      reads this
    {
      Display(config, text, visible, bold, italic, textShadow, bgEnabled, glowEnabled,
              textColor, bgColor, glowColor, pending, shown)
    }

    /** The pending slot only ever holds the latest `set_text`. */
    ghost predicate Valid()
      reads this
    {
      pending.Some? ==> pending.value == text
    }

    /** `OverlayWindow(config)`: the styling copies start at their own
        defaults, whatever the configuration says. */
    constructor (c: Option<OverlayConfig>)
      ensures config == c.GetOr(DefaultOverlayConfig())
      ensures text == "" && !visible && pending == None && shown == ""
      ensures !bold && !italic && textShadow && bgEnabled && !glowEnabled
      ensures textColor == "#ffffff" && bgColor == "#000000" && glowColor == "#00d4ff"
      ensures Valid()
    {
      config := c.GetOr(DefaultOverlayConfig());
      text, visible, pending, shown := "", false, None, "";
      bold, italic, textShadow, bgEnabled, glowEnabled := false, false, true, true, false;
      textColor, bgColor, glowColor := "#ffffff", "#000000", "#00d4ff";
    }

    /** `get_config`: the font and position come from the configuration, the
        background, glow and colours from the styling copies. */
    function GetConfig(): (c: OverlayConfig)
      reads this
      ensures c.fontSize == config.fontSize && (c.positionX, c.positionY) == (config.positionX, config.positionY)
      ensures c.backgroundEnabled == bgEnabled && c.glowEffect == glowEnabled
      ensures c.textColor == textColor && c.bgColor == bgColor && c.glowColor == glowColor
    {
      config.(backgroundEnabled := bgEnabled, glowEffect := glowEnabled, textColor := textColor,
              bgColor := bgColor, glowColor := glowColor)
    }

    /** `set_font_size`: the size is kept within [10, 72]. */
    method SetFontSize(size: int)
      modifies this
      ensures State() == old(State()).(config := old(config).(fontSize := Clamp(MinFontSize, MaxFontSize, size)))
      ensures GetConfig() == old(GetConfig()).(fontSize := Clamp(MinFontSize, MaxFontSize, size))
    {
      config := config.(fontSize := Clamp(MinFontSize, MaxFontSize, size));
    }

    function GetFontSize(): (s: int)
      reads this
    {
      config.fontSize
    }

    method SetFontFamily(family: string)
      modifies this
      ensures State() == old(State()).(config := old(config).(fontFamily := family))
      ensures GetConfig() == old(GetConfig()).(fontFamily := family)
    {
      config := config.(fontFamily := family);
    }

    function GetFontFamily(): string
      reads this
    {
      config.fontFamily
    }

    method SetPosition(x: int, y: int)
      modifies this
      ensures State() == old(State()).(config := old(config).(positionX := x, positionY := y))
      ensures GetConfig() == old(GetConfig()).(positionX := x, positionY := y)
    {
      config := config.(positionX := x, positionY := y);
    }

    function GetPosition(): (int, int)
      reads this
    {
      (config.positionX, config.positionY)
    }

    /** `set_background_blur`: only the styling copy changes. */
    method SetBackgroundBlur(enabled: bool)
      modifies this
      ensures State() == old(State()).(bgEnabled := enabled)
      ensures GetConfig() == old(GetConfig()).(backgroundEnabled := enabled)
    {
      bgEnabled := enabled;
    }

    function GetBackgroundBlur(): bool
      reads this
    {
      bgEnabled
    }

    /** `set_glow_effect`: both the copy and the configuration change. */
    method SetGlowEffect(enabled: bool)
      modifies this
      ensures State() == old(State()).(glowEnabled := enabled, config := old(config).(glowEffect := enabled))
      ensures GetConfig() == old(GetConfig()).(glowEffect := enabled)
    {
      glowEnabled := enabled;
      config := config.(glowEffect := enabled);
    }

    method SetTextColor(color: string)
      modifies this
      ensures State() == old(State()).(textColor := color, config := old(config).(textColor := color))
      ensures GetConfig() == old(GetConfig()).(textColor := color)
    {
      textColor := color;
      config := config.(textColor := color);
    }

    method SetBgColor(color: string)
      modifies this
      ensures State() == old(State()).(bgColor := color, config := old(config).(bgColor := color))
      ensures GetConfig() == old(GetConfig()).(bgColor := color)
    {
      bgColor := color;
      config := config.(bgColor := color);
    }

    method SetGlowColor(color: string)
      modifies this
      ensures State() == old(State()).(glowColor := color, config := old(config).(glowColor := color))
      ensures GetConfig() == old(GetConfig()).(glowColor := color)
    {
      glowColor := color;
      config := config.(glowColor := color);
    }

    method SetBold(enabled: bool)
      modifies this
      ensures State() == old(State()).(bold := enabled) && GetConfig() == old(GetConfig())
    {
      bold := enabled;
    }

    method SetItalic(enabled: bool)
      modifies this
      ensures State() == old(State()).(italic := enabled) && GetConfig() == old(GetConfig())
    {
      italic := enabled;
    }

    method SetTextShadow(enabled: bool)
      modifies this
      ensures State() == old(State()).(textShadow := enabled) && GetConfig() == old(GetConfig())
    {
      textShadow := enabled;
    }

    /** `set_text`: the text is recorded and posted to the pending slot,
        replacing anything not yet picked up. */
    method SetText(t: string)
      modifies this
      ensures State() == Posted(old(State()), t)
      ensures Valid()
    {
      text := t;
      pending := Some(t);
    }

    function GetText(): string
      reads this
    {
      text
    }

    /** `_check_pending_text`, the UI timer: a posted text is taken out of
        the slot and shown. */
    method CheckPendingText()
      requires Valid()
      modifies this
      ensures State() == old(State()).(pending := None, shown := if old(pending).Some? then old(text) else old(shown))
      ensures Valid()
    {
      if pending.Some? {
        var t := pending.value;
        pending := None;
        shown := t;
      }
    }

    method ShowOverlay()
      modifies this
      ensures State() == old(State()).(visible := true)
    {
      visible := true;
    }

    method HideOverlay()
      modifies this
      ensures State() == old(State()).(visible := false)
    {
      visible := false;
    }

    function IsVisible(): bool
      reads this
    {
      visible
    }
  }

  /** Two `set_text` calls before the timer fires: the timer shows only the
      second, and `get_text` returns it. */
  method LastWriteWins(w: OverlayWindow, t1: string, t2: string)
    requires w.Valid()
    modifies w
    ensures w.shown == t2 && w.GetText() == t2 && w.pending == None
  {
    w.SetText(t1);
    w.SetText(t2);
    w.CheckPendingText();
  }

  /** A later poll with nothing posted leaves the label as it is. */
  method PollTwice(w: OverlayWindow)
    requires w.Valid()
    modifies w
    ensures w.shown == (if old(w.pending).Some? then old(w.text) else old(w.shown))
  {
    w.CheckPendingText();
    w.CheckPendingText();
  }

  /** The font size 8 is raised to the minimum 10, 100 lowered to 72. */
  method FontSizeClamped(w: OverlayWindow) returns (small: int, large: int)
    modifies w
    ensures small == 10 && large == 72
  {
    w.SetFontSize(8);
    small := w.GetFontSize();
    w.SetFontSize(100);
    large := w.GetFontSize();
  }

  /** A window built from a configuration with other colours still reports
      the default colours until the setters run. */
  method ConfiguredColoursIgnored(c: OverlayConfig) returns (got: OverlayConfig)
    ensures got.textColor == "#ffffff" && got.bgColor == "#000000" && got.glowColor == "#00d4ff"
    ensures got.fontSize == c.fontSize
  {
    var w := new OverlayWindow(Some(c));
    got := w.GetConfig();
  }
}
