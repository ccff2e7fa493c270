/** The presentation template registry (templates.py:23-640): template
    configurations whose four sub-configurations are objects, and the manager
    that keeps them in a dictionary and derives custom and branded templates.
    A derived template shares its base's sub-configuration objects, so
    modifying it modifies the base as well. */
module Templates {
  import opened Wrappers
  import opened HexColor

  /** A configuration attribute value (strings, sizes, measures, flags and
      the margins tuple). */
  datatype Value = Str(s: string) | Int(i: int) | Num(x: real) | Bool(b: bool)
                 | Quad(top: real, right: real, bottom: real, left: real)

  /** The value given for a colour in a modification: a hex string, a list or
      tuple of items of any kind, or anything else (ignored). */
  datatype ColorValue = HexText(text: string) | Components(items: seq<ColorItem>) | OtherValue

  /** An item of a colour list as `RGBColor` sees it: an `int` (a `bool` is
      one, 0 or 1) or anything else, such as a float or a string. */
  datatype ColorItem = IntItem(n: int) | OtherItem

  /** An item `RGBColor` accepts: an integer in 0..255. */
  predicate IsByte(v: ColorItem) {
    v.IntItem? && 0 <= v.n < 256
  }

  /** `ColorScheme`: the ten named colours. */
  class ColorScheme {
    var colors: map<string, Rgb>
    constructor (colors: map<string, Rgb>)
      ensures this.colors == colors
    {
      this.colors := colors;
    }
  }

  /** `FontConfig`: font names and sizes by attribute name. */
  class FontConfig {
    var attrs: map<string, Value>
    constructor (attrs: map<string, Value>)
      ensures this.attrs == attrs
    {
      this.attrs := attrs;
    }
  }

  /** `LayoutConfig`: margins and measures by attribute name. */
  class LayoutConfig {
    var attrs: map<string, Value>
    constructor (attrs: map<string, Value>)
      ensures this.attrs == attrs
    {
      this.attrs := attrs;
    }
  }

  /** `AnimationConfig`: transition settings by attribute name. */
  class AnimationConfig {
    var attrs: map<string, Value>
    constructor (attrs: map<string, Value>)
      ensures this.attrs == attrs
    {
      this.attrs := attrs;
    }
  }

  /** `TemplateConfig`.  The sub-configurations are references; the slide
      layouts and custom elements are dictionaries held by value. */
  class TemplateConfig {
    var name: string
    var description: string
    const colorScheme: ColorScheme
    const fontConfig: FontConfig
    const layoutConfig: LayoutConfig
    const animationConfig: AnimationConfig
    var slideLayouts: map<string, string>
    var customElements: map<string, string>

    constructor (name: string, description: string, colorScheme: ColorScheme, fontConfig: FontConfig,
                 layoutConfig: LayoutConfig, animationConfig: AnimationConfig,
                 slideLayouts: map<string, string>, customElements: map<string, string>)
      ensures this.name == name && this.description == description
      ensures this.colorScheme == colorScheme && this.fontConfig == fontConfig
      ensures this.layoutConfig == layoutConfig && this.animationConfig == animationConfig
      ensures this.slideLayouts == slideLayouts && this.customElements == customElements
    {
      this.name := name;
      this.description := description;
      this.colorScheme := colorScheme;
      this.fontConfig := fontConfig;
      this.layoutConfig := layoutConfig;
      this.animationConfig := animationConfig;
      this.slideLayouts := slideLayouts;
      this.customElements := customElements;
    }

    /** The objects a modification of this template writes. */
    function Parts(): set<object>
    {
      {colorScheme, fontConfig, layoutConfig, animationConfig}
    }
  }

  /** The modifications dictionary: each of the four sections is absent or an
      ordered list of (attribute, value) pairs. */
  datatype Modifications = Modifications(
    colors: Option<seq<(string, ColorValue)>>,
    fonts: Option<seq<(string, Value)>>,
    layout: Option<seq<(string, Value)>>,
    animations: Option<seq<(string, Value)>>)

  const NoModifications := Modifications(None, None, None, None)

  // ---------------------------------------------------------------------
  // Specification of `_apply_template_modifications` (templates.py:346-381)
  // ---------------------------------------------------------------------

  /** What a colour value turns into: None when it is ignored, else the
      colour or the error the conversion raises. */
  function ColorOf(v: ColorValue): Option<Parsed> {
    match v
    case HexText(s) => Some(HexToRgb(s))
    case Components(xs) =>
      if |xs| != 3 then None
      else if xs[0].IntItem? && xs[1].IntItem? && xs[2].IntItem?
              && 0 <= xs[0].n < 256 && 0 <= xs[1].n < 256 && 0 <= xs[2].n < 256
      then Some(Ok(Rgb(xs[0].n, xs[1].n, xs[2].n)))
      else Some(Err(OutOfRange))
    case OtherValue => None
  }

  /** Which colour values are converted and when the conversion raises: a
      string always, failing exactly when the hex parse fails; a list or
      tuple of three items of any kind, failing exactly when an item is not
      an integer in 0..255 (so `[255, 128.0, 0]` fails); a list of another
      length and anything else are ignored. */
  lemma ColorOfCases(v: ColorValue)
    ensures v.OtherValue? ==> ColorOf(v).None?
    ensures v.HexText? ==> ColorOf(v).Some? && (ColorOf(v).value.Err? <==> HexToRgb(v.text).Err?)
    ensures v.Components? ==> (ColorOf(v).None? <==> |v.items| != 3)
    ensures v.Components? && ColorOf(v).Some? ==>
              (ColorOf(v).value.Ok? <==> forall k :: 0 <= k < 3 ==> IsByte(v.items[k]))
    ensures v.Components? && ColorOf(v).Some? && ColorOf(v).value.Ok? ==>
              ColorOf(v).value.color == Rgb(v.items[0].n, v.items[1].n, v.items[2].n)
  {
  }

  /** The colours after the first `n` colour modifications, and whether no
      conversion raised; after a raise nothing further is applied. */
  datatype ColorOutcome = ColorOutcome(colors: map<string, Rgb>, ok: bool)

  function ApplyColors(colors: map<string, Rgb>, mods: seq<(string, ColorValue)>, n: nat): ColorOutcome
    requires n <= |mods|
  {
    if n == 0 then ColorOutcome(colors, true)
    else
      var prev := ApplyColors(colors, mods, n - 1);
      var name := mods[n - 1].0;
      if !prev.ok || name !in prev.colors then prev
      else
        match ColorOf(mods[n - 1].1)
        case None => prev
        case Some(Ok(c)) => ColorOutcome(prev.colors[name := c], true)
        case Some(Err(_)) => ColorOutcome(prev.colors, false)
  }

  function ColorsAfter(colors: map<string, Rgb>, mods: Option<seq<(string, ColorValue)>>): (r: ColorOutcome)
    ensures mods.None? ==> r == ColorOutcome(colors, true)
  {
    match mods
    case None => ColorOutcome(colors, true)
    case Some(ms) => ApplyColors(colors, ms, |ms|)
  }

  /** `setattr` for the first `n` pairs whose attribute exists. */
  function SetAttrs(attrs: map<string, Value>, mods: seq<(string, Value)>, n: nat): (r: map<string, Value>)
    requires n <= |mods|
    ensures r.Keys == attrs.Keys
  {
    if n == 0 then attrs
    else
      var prev := SetAttrs(attrs, mods, n - 1);
      if mods[n - 1].0 in prev then prev[mods[n - 1].0 := mods[n - 1].1] else prev
  }

  function AttrsAfter(attrs: map<string, Value>, mods: Option<seq<(string, Value)>>): (r: map<string, Value>)
    ensures mods.None? ==> r == attrs
  {
    match mods
    case None => attrs
    case Some(ms) => SetAttrs(attrs, ms, |ms|)
  }

  /** Modifications never add an attribute: names the configuration lacks
      are ignored. */
  lemma {:induction false} SetAttrsKeepsNames(attrs: map<string, Value>, mods: seq<(string, Value)>, n: nat)
    requires n <= |mods|
    ensures SetAttrs(attrs, mods, n).Keys == attrs.Keys
    ensures forall k :: k in attrs && (forall i :: 0 <= i < n ==> mods[i].0 != k) ==>
              SetAttrs(attrs, mods, n)[k] == attrs[k]
    decreases n
  {
    if n > 0 {
      SetAttrsKeepsNames(attrs, mods, n - 1);
    }
  }

  /** Colour modifications never add a colour name, and leave alone every
      colour no pair names. */
  lemma {:induction false} ApplyColorsKeepsNames(colors: map<string, Rgb>, mods: seq<(string, ColorValue)>, n: nat)
    requires n <= |mods|
    ensures ApplyColors(colors, mods, n).colors.Keys == colors.Keys
    ensures forall k :: k in colors && (forall i :: 0 <= i < n ==> mods[i].0 != k) ==>
              ApplyColors(colors, mods, n).colors[k] == colors[k]
    decreases n
  {
    if n > 0 {
      ApplyColorsKeepsNames(colors, mods, n - 1);
    }
  }

  /** A conversion fails when a named colour's value is a malformed hex
      string or an out-of-range triple. */
  predicate Rejected(colors: map<string, Rgb>, m: (string, ColorValue)) {
    m.0 in colors && ColorOf(m.1).Some? && ColorOf(m.1).value.Err?
  }

  /** The colour modifications succeed exactly when none of them is
      rejected; names the scheme lacks are never converted, so their values
      cannot fail. */
  lemma {:induction false} ApplyColorsOk(colors: map<string, Rgb>, mods: seq<(string, ColorValue)>, n: nat)
    requires n <= |mods|
    ensures ApplyColors(colors, mods, n).ok <==> forall i :: 0 <= i < n ==> !Rejected(colors, mods[i])
    decreases n
  {
    if n > 0 {
      ApplyColorsOk(colors, mods, n - 1);
      ApplyColorsOkStep(colors, mods, n);
    }
  }

  /** One more modification keeps the outcome ok exactly when it was ok and
      the new pair is not rejected. */
  lemma ApplyColorsOkStep(colors: map<string, Rgb>, mods: seq<(string, ColorValue)>, n: nat)
    requires 0 < n <= |mods|
    ensures ApplyColors(colors, mods, n).ok <==> ApplyColors(colors, mods, n - 1).ok && !Rejected(colors, mods[n - 1])
  {
    ApplyColorsKeepsNames(colors, mods, n - 1);
    var prev := ApplyColors(colors, mods, n - 1);
    assert mods[n - 1].0 in prev.colors <==> mods[n - 1].0 in colors;
  }

  /** A failed colour conversion does not undo the colours set before it:
      the outcome reports failure while the earlier assignment stays. */
  lemma PartialColorUpdate(colors: map<string, Rgb>)
    requires "primary" in colors && "accent" in colors
    ensures ApplyColors(colors, [("primary", HexText("#000000")), ("accent", HexText("#12"))], 2)
              == ColorOutcome(colors["primary" := Rgb(0, 0, 0)], false)
  {
    var mods := [("primary", HexText("#000000")), ("accent", HexText("#12"))];
    HexNormalisesZero();
    ShortHexRejected();
    assert ApplyColors(colors, mods, 0) == ColorOutcome(colors, true);
    assert ColorOf(mods[0].1) == Some(Ok(Rgb(0, 0, 0)));
    ColorStepSets(colors, mods, 1, Rgb(0, 0, 0));
    var first := colors["primary" := Rgb(0, 0, 0)];
    assert ApplyColors(colors, mods, 1) == ColorOutcome(first, true);
    assert "accent" in first;
    assert ColorOf(mods[1].1) == Some(Err(WrongLength));
    ColorStepFails(colors, mods, 2);
  }

  /** A named colour whose value converts is set, and the outcome stays ok. */
  lemma ColorStepSets(colors: map<string, Rgb>, mods: seq<(string, ColorValue)>, n: nat, c: Rgb)
    requires 0 < n <= |mods|
    requires ApplyColors(colors, mods, n - 1).ok && mods[n - 1].0 in ApplyColors(colors, mods, n - 1).colors
    requires ColorOf(mods[n - 1].1) == Some(Ok(c))
    ensures ApplyColors(colors, mods, n) == ColorOutcome(ApplyColors(colors, mods, n - 1).colors[mods[n - 1].0 := c], true)
  {
  }

  /** A named colour whose value fails to convert stops the update: the
      colours so far stay and the outcome is a failure. */
  lemma ColorStepFails(colors: map<string, Rgb>, mods: seq<(string, ColorValue)>, n: nat)
    requires 0 < n <= |mods|
    requires ApplyColors(colors, mods, n - 1).ok && mods[n - 1].0 in ApplyColors(colors, mods, n - 1).colors
    requires ColorOf(mods[n - 1].1).Some? && ColorOf(mods[n - 1].1).value.Err?
    ensures ApplyColors(colors, mods, n) == ColorOutcome(ApplyColors(colors, mods, n - 1).colors, false)
  {
  }

  lemma ShortHexRejected()
    ensures HexToRgb("#12") == Err(WrongLength)
  {
    assert StripHashes("12") == "12";
    assert StripHashes("#12") == "12";
  }

  lemma HexNormalisesZero()
    ensures HexToRgb("#000000") == Ok(Rgb(0, 0, 0))
  {
    assert StripHashes("#000000") == "000000" by {
      var s, h := "#000000", "000000";
      assert s[0] == '#' && s[1..] == h && h[0] != '#';
    }
    assert ParseSix("000000") == Ok(Rgb(0, 0, 0)) by {
      var h := "000000";
      assert ParsePair('0', '0') == Some(0);
      assert h[0] == h[1] == h[2] == h[3] == h[4] == h[5] == '0';
    }
  }

  /** `_apply_template_modifications`: colours first (hex strings and
      three-element lists are converted; a failed conversion raises, leaving
      the colours set so far in place and skipping the remaining sections),
      then fonts, layout and animations by `setattr`, each only for attribute
      names the configuration has.  Returns false where the source raises. */
  method ApplyModifications(t: TemplateConfig, mods: Modifications) returns (ok: bool)
    modifies t.Parts()
    ensures var co := ColorsAfter(old(t.colorScheme.colors), mods.colors);
            t.colorScheme.colors == co.colors && ok == co.ok
    ensures ok ==> t.fontConfig.attrs == AttrsAfter(old(t.fontConfig.attrs), mods.fonts)
    ensures ok ==> t.layoutConfig.attrs == AttrsAfter(old(t.layoutConfig.attrs), mods.layout)
    ensures ok ==> t.animationConfig.attrs == AttrsAfter(old(t.animationConfig.attrs), mods.animations)
    ensures !ok ==> unchanged(t.fontConfig, t.layoutConfig, t.animationConfig)
  {
    if mods.colors.Some? {
      var colors, converted := ApplyColorList(t.colorScheme.colors, mods.colors.value);
      t.colorScheme.colors := colors;
      if !converted {
        return false;
      }
    }
    if mods.fonts.Some? {
      t.fontConfig.attrs := SetAll(t.fontConfig.attrs, mods.fonts.value);
    }
    if mods.layout.Some? {
      t.layoutConfig.attrs := SetAll(t.layoutConfig.attrs, mods.layout.value);
    }
    if mods.animations.Some? {
      t.animationConfig.attrs := SetAll(t.animationConfig.attrs, mods.animations.value);
    }
    ok := true;
  }

  /** The colour loop: each named colour the scheme has is converted and
      set in turn; the first failed conversion stops the loop, returning the
      colours as they stand and false. */
  method ApplyColorList(colors: map<string, Rgb>, cm: seq<(string, ColorValue)>)
    returns (result: map<string, Rgb>, converted: bool)
    ensures ColorOutcome(result, converted) == ApplyColors(colors, cm, |cm|)
  {
    result := colors;
    for i := 0 to |cm|
      invariant ApplyColors(colors, cm, i) == ColorOutcome(result, true)
    {
      var (name, value) := cm[i];
      if name in result {
        match value
        case HexText(s) =>
          var parsed := HexToRgb(s);
          if parsed.Err? {
            assert ApplyColors(colors, cm, i + 1) == ColorOutcome(result, false);
            ApplyColorsStopped(colors, cm, i + 1);
            return result, false;
          }
          result := result[name := parsed.color];
        case Components(xs) =>
          if |xs| == 3 {
            if !(IsByte(xs[0]) && IsByte(xs[1]) && IsByte(xs[2])) {
              assert ApplyColors(colors, cm, i + 1) == ColorOutcome(result, false);
              ApplyColorsStopped(colors, cm, i + 1);
              return result, false;
            }
            result := result[name := Rgb(xs[0].n, xs[1].n, xs[2].n)];
          }
        case OtherValue =>
      }
    }
    converted := true;
  }

  /** The `setattr` loop over one section: only attributes the
      configuration has are assigned. */
  method SetAll(attrs: map<string, Value>, ms: seq<(string, Value)>) returns (result: map<string, Value>)
    ensures result == SetAttrs(attrs, ms, |ms|)
  {
    result := attrs;
    for i := 0 to |ms|
      invariant result == SetAttrs(attrs, ms, i)
    {
      if ms[i].0 in result {
        result := result[ms[i].0 := ms[i].1];
      }
    }
  }

  /** Once a conversion has failed, later pairs change nothing. */
  lemma {:induction false} ApplyColorsStopped(colors: map<string, Rgb>, mods: seq<(string, ColorValue)>, n: nat)
    requires n <= |mods| && !ApplyColors(colors, mods, n).ok
    ensures ApplyColors(colors, mods, |mods|) == ApplyColors(colors, mods, n)
    decreases |mods| - n
  {
    if n < |mods| {
      assert ApplyColors(colors, mods, n + 1) == ApplyColors(colors, mods, n);
      ApplyColorsStopped(colors, mods, n + 1);
    }
  }

  // ---------------------------------------------------------------------
  // Template values and the default registry (templates.py:97-288)
  // ---------------------------------------------------------------------

  /** The state of one template, read through its sub-configurations. */
  datatype TemplateData = TemplateData(
    name: string, description: string,
    colors: map<string, Rgb>, fonts: map<string, Value>,
    layout: map<string, Value>, animation: map<string, Value>,
    slideLayouts: map<string, string>, customElements: map<string, string>)

  function Snapshot(t: TemplateConfig): TemplateData
    reads t, t.Parts()
  {
    TemplateData(t.name, t.description, t.colorScheme.colors, t.fontConfig.attrs,
                 t.layoutConfig.attrs, t.animationConfig.attrs, t.slideLayouts, t.customElements)
  }

  /** The fields of the four configuration dataclasses (templates.py:31-76). */
  const ColorFields: set<string> :=
    {"primary", "secondary", "accent", "success", "danger", "warning", "text", "text_secondary",
     "background", "background_secondary"}
  const FontFields: set<string> :=
    {"title_font", "heading_font", "body_font", "code_font", "title_size", "heading_size", "body_size", "caption_size"}
  const LayoutFields: set<string> :=
    {"margins", "content_width", "content_height", "image_max_width", "image_max_height", "chart_width", "chart_height"}
  const AnimationFields: set<string> :=
    {"slide_transition", "element_entrance", "element_emphasis", "duration", "auto_advance"}

  /** Every dataclass field is set, so `hasattr` holds for each of them. */
  predicate AllFields(d: TemplateData) {
    && d.colors.Keys == ColorFields && d.fonts.Keys == FontFields
    && d.layout.Keys == LayoutFields && d.animation.Keys == AnimationFields
  }

  /** The ten colour fields of a scheme. */
  function Scheme(primary: Rgb, secondary: Rgb, accent: Rgb, success: Rgb, danger: Rgb, warning: Rgb,
                  text: Rgb, textSecondary: Rgb, background: Rgb, backgroundSecondary: Rgb): map<string, Rgb>
  {
    map["primary" := primary, "secondary" := secondary, "accent" := accent, "success" := success,
        "danger" := danger, "warning" := warning, "text" := text, "text_secondary" := textSecondary,
        "background" := background, "background_secondary" := backgroundSecondary]
  }

  /** Font fields; the caption size keeps its default of 14. */
  function Fonts(title: string, heading: string, body: string, code: string,
                 titleSize: int, headingSize: int, bodySize: int): map<string, Value>
  {
    map["title_font" := Str(title), "heading_font" := Str(heading), "body_font" := Str(body),
        "code_font" := Str(code), "title_size" := Int(titleSize), "heading_size" := Int(headingSize),
        "body_size" := Int(bodySize), "caption_size" := Int(14)]
  }

  /** Layout fields: equal margins, content size, and the defaults for
      images (6.0 by 4.0) and charts (8.0 by 4.5). */
  function Layout(margin: real, contentWidth: real, contentHeight: real): map<string, Value>
  {
    map["margins" := Quad(margin, margin, margin, margin), "content_width" := Num(contentWidth),
        "content_height" := Num(contentHeight), "image_max_width" := Num(6.0),
        "image_max_height" := Num(4.0), "chart_width" := Num(8.0), "chart_height" := Num(4.5)]
  }

  /** Animation fields; emphasis stays "pulse" and auto-advance off. */
  function Animation(transition: string, entrance: string, duration: real): map<string, Value>
  {
    map["slide_transition" := Str(transition), "element_entrance" := Str(entrance),
        "element_emphasis" := Str("pulse"), "duration" := Num(duration), "auto_advance" := Bool(false)]
  }

  /** The registry keys of the built-in templates, in loading order. */
  const DefaultKeys: seq<string> :=
    ["crypto_professional", "modern_dark", "corporate_blue", "minimalist", "gaming_style"]

  /** The template stored under "crypto_professional". */
  function CryptoProfessional(): TemplateData {
    TemplateData("Crypto Professional", "Professionelles Design für Kryptowährungs-Trading",
      Scheme(Rgb(26, 35, 126), Rgb(63, 81, 181), Rgb(255, 193, 7), Rgb(76, 175, 80), Rgb(244, 67, 54),
             Rgb(255, 152, 0), Rgb(33, 33, 33), Rgb(117, 117, 117), Rgb(248, 249, 250), Rgb(255, 255, 255)),
      Fonts("Montserrat Black", "Montserrat Bold", "Open Sans", "Consolas", 48, 36, 20),
      Layout(0.8, 8.7, 6.2),
      Animation("push", "fly_in_from_bottom", 0.5),
      map["title" := "professional_title", "content" := "professional_content",
          "comparison" := "professional_comparison", "chart" := "professional_chart"],
      map[])
  }

  /** The template stored under "modern_dark". */
  function ModernDark(): TemplateData {
    TemplateData("Modern Dark", "Modernes dunkles Design für Tech-affine Zielgruppen",
      Scheme(Rgb(18, 18, 18), Rgb(45, 45, 45), Rgb(0, 230, 118), Rgb(0, 200, 83), Rgb(255, 82, 82),
             Rgb(255, 183, 77), Rgb(255, 255, 255), Rgb(180, 180, 180), Rgb(30, 30, 30), Rgb(40, 40, 40)),
      Fonts("Roboto Black", "Roboto Bold", "Roboto", "JetBrains Mono", 46, 34, 19),
      Layout(1.0, 8.5, 6.0),
      Animation("fade", "appear", 0.3),
      map[], map[])
  }

  /** The template stored under "corporate_blue". */
  function CorporateBlue(): TemplateData {
    TemplateData("Corporate Blue", "Klassisches Corporate Design für Business-Präsentationen",
      Scheme(Rgb(0, 77, 153), Rgb(0, 102, 204), Rgb(255, 140, 0), Rgb(34, 139, 34), Rgb(220, 20, 60),
             Rgb(255, 165, 0), Rgb(51, 51, 51), Rgb(102, 102, 102), Rgb(255, 255, 255), Rgb(245, 245, 245)),
      Fonts("Calibri Bold", "Calibri", "Calibri", "Consolas", 42, 30, 18),
      Layout(1.2, 8.1, 5.6),
      Animation("wipe", "fly_in_from_left", 0.6),
      map[], map[])
  }

  /** The template stored under "minimalist". */
  function Minimalist(): TemplateData {
    TemplateData("Minimalist", "Cleanes, minimalistisches Design mit Fokus auf Inhalte",
      Scheme(Rgb(60, 60, 60), Rgb(120, 120, 120), Rgb(100, 149, 237), Rgb(60, 179, 113), Rgb(205, 92, 92),
             Rgb(238, 130, 238), Rgb(40, 40, 40), Rgb(100, 100, 100), Rgb(255, 255, 255), Rgb(250, 250, 250)),
      Fonts("Helvetica Neue Light", "Helvetica Neue", "Helvetica Neue", "Consolas", 40, 28, 16),
      Layout(1.5, 7.5, 5.0),
      Animation("none", "fade", 0.4),
      map[], map[])
  }

  /** The template stored under "gaming_style". */
  function GamingStyle(): TemplateData {
    TemplateData("Gaming Style", "Gaming-inspiriertes Design für jüngere Zielgruppen",
      Scheme(Rgb(138, 43, 226), Rgb(75, 0, 130), Rgb(255, 20, 147), Rgb(50, 205, 50), Rgb(255, 69, 0),
             Rgb(255, 215, 0), Rgb(255, 255, 255), Rgb(200, 200, 200), Rgb(25, 25, 25), Rgb(35, 35, 35)),
      Fonts("Impact", "Arial Black", "Arial", "Courier New", 50, 38, 22),
      Layout(0.7, 8.8, 6.6),
      Animation("split", "bounce", 0.8),
      map[], map[])
  }

  /** The `i`-th built-in template, stored under `DefaultKeys[i]`. */
  function DefaultTemplate(i: nat): TemplateData
    requires i < |DefaultKeys|
  {
    if i == 0 then CryptoProfessional()
    else if i == 1 then ModernDark()
    else if i == 2 then CorporateBlue()
    else if i == 3 then Minimalist()
    else GamingStyle()
  }

  /** A scheme sets exactly the ten `ColorScheme` fields. */
  lemma SchemeFields(primary: Rgb, secondary: Rgb, accent: Rgb, success: Rgb, danger: Rgb, warning: Rgb,
                     text: Rgb, textSecondary: Rgb, background: Rgb, backgroundSecondary: Rgb)
    ensures Scheme(primary, secondary, accent, success, danger, warning, text, textSecondary, background,
                   backgroundSecondary).Keys == ColorFields
  {
  }

  /** A font configuration sets exactly the eight `FontConfig` fields, the
      caption size keeping its default of 14. */
  lemma FontsFields(title: string, heading: string, body: string, code: string,
                    titleSize: int, headingSize: int, bodySize: int)
    ensures Fonts(title, heading, body, code, titleSize, headingSize, bodySize).Keys == FontFields
    ensures Fonts(title, heading, body, code, titleSize, headingSize, bodySize)["caption_size"] == Int(14)
  {
  }

  /** A layout sets exactly the seven `LayoutConfig` fields. */
  lemma LayoutFieldsSet(margin: real, contentWidth: real, contentHeight: real)
    ensures Layout(margin, contentWidth, contentHeight).Keys == LayoutFields
  {
  }

  /** An animation configuration sets exactly the five `AnimationConfig`
      fields, auto-advance keeping its default off. */
  lemma AnimationFieldsSet(transition: string, entrance: string, duration: real)
    ensures Animation(transition, entrance, duration).Keys == AnimationFields
    ensures Animation(transition, entrance, duration)["auto_advance"] == Bool(false)
  {
  }

  /** Each built-in template sets every dataclass field, has a name and a
      description, and no custom elements. */
  lemma BuiltInsComplete(i: nat)
    requires i < |DefaultKeys|
    ensures AllFields(DefaultTemplate(i))
    ensures DefaultTemplate(i).name != "" && DefaultTemplate(i).description != ""
    ensures DefaultTemplate(i).customElements == map[]
  {
    if i == 0 { CryptoProfessionalComplete(); }
    else if i == 1 { ModernDarkComplete(); }
    else if i == 2 { CorporateBlueComplete(); }
    else if i == 3 { MinimalistComplete(); }
    else { GamingStyleComplete(); }
  }

  /** The "crypto_professional" built-in sets every dataclass field. */
  lemma CryptoProfessionalComplete()
    ensures AllFields(CryptoProfessional())
  {
  }

  /** The "modern_dark" built-in sets every dataclass field. */
  lemma ModernDarkComplete()
    ensures AllFields(ModernDark())
  {
  }

  /** The "corporate_blue" built-in sets every dataclass field. */
  lemma CorporateBlueComplete()
    ensures AllFields(CorporateBlue())
  {
  }

  /** The "minimalist" built-in sets every dataclass field. */
  lemma MinimalistComplete()
    ensures AllFields(Minimalist())
  {
  }

  /** The "gaming_style" built-in sets every dataclass field. */
  lemma GamingStyleComplete()
    ensures AllFields(GamingStyle())
  {
  }

  /** No key is listed twice (the five keys even differ in length). */
  lemma DefaultKeysDistinct()
    ensures forall i, j :: 0 <= i < j < |DefaultKeys| ==> DefaultKeys[i] != DefaultKeys[j]
  {
    assert |DefaultKeys[0]| == 19 && |DefaultKeys[1]| == 11 && |DefaultKeys[2]| == 14;
    assert |DefaultKeys[3]| == 10 && |DefaultKeys[4]| == 12;
  }

  /** Builds a template with fresh sub-configuration objects. */
  method Instantiate(d: TemplateData) returns (t: TemplateConfig)
    ensures fresh(t) && fresh(t.Parts())
    ensures Snapshot(t) == d
  {
    var cs := new ColorScheme(d.colors);
    var fc := new FontConfig(d.fonts);
    var lc := new LayoutConfig(d.layout);
    var ac := new AnimationConfig(d.animation);
    t := new TemplateConfig(d.name, d.description, cs, fc, lc, ac, d.slideLayouts, d.customElements);
  }

  /** No two registry entries share a sub-configuration object, so modifying
      one entry's parts leaves every other entry as it was. */
  predicate Separate(m: map<string, TemplateConfig>) {
    forall k, k' :: k in m && k' in m && k != k' ==> m[k].Parts() !! m[k'].Parts()
  }

  /** Loads the built-in templates: each of the five gets its own
      sub-configurations and is stored under its key, one after the other. */
  method LoadDefaults(keys: seq<string>, data: seq<TemplateData>) returns (loaded: map<string, TemplateConfig>)
    requires |keys| == |data| == 5
    requires forall j, j' :: 0 <= j < j' < |keys| ==> keys[j] != keys[j']
    ensures forall k :: k in loaded <==> k in keys
    ensures forall i :: 0 <= i < |keys| ==> keys[i] in loaded && Snapshot(loaded[keys[i]]) == data[i]
    ensures forall k :: k in loaded ==> fresh(loaded[k]) && fresh(loaded[k].Parts())
    ensures Separate(loaded)
  {
    var made := InstantiateAll(data);
    loaded := map[keys[0] := made[0], keys[1] := made[1], keys[2] := made[2], keys[3] := made[3], keys[4] := made[4]];
    EachKeyHolds(loaded, keys, made);
    forall k, k' | k in loaded && k' in loaded && k != k'
      ensures loaded[k].Parts() !! loaded[k'].Parts()
    {
      var i :| 0 <= i < |keys| && keys[i] == k;
      var j :| 0 <= j < |keys| && keys[j] == k';
      if i < j {
        assert made[i].Parts() !! made[j].Parts();
      } else {
        assert made[j].Parts() !! made[i].Parts();
      }
    }
  }

  /** `_load_default_templates`: the five built-in templates under their keys. */
  method LoadBuiltIns() returns (loaded: map<string, TemplateConfig>)
    ensures forall k :: k in loaded <==> k in DefaultKeys
    ensures forall i :: 0 <= i < |DefaultKeys| ==>
              DefaultKeys[i] in loaded && Snapshot(loaded[DefaultKeys[i]]) == DefaultTemplate(i)
    ensures forall k :: k in loaded ==> fresh(loaded[k]) && fresh(loaded[k].Parts())
    ensures Separate(loaded)
  {
    DefaultKeysDistinct();
    loaded := LoadDefaults(DefaultKeys, seq(|DefaultKeys|, i requires 0 <= i < |DefaultKeys| => DefaultTemplate(i)));
  }

  /** A fresh template for each entry of `data`, in order; no two of them
      share a sub-configuration object. */
  method InstantiateAll(data: seq<TemplateData>) returns (made: seq<TemplateConfig>)
    ensures |made| == |data|
    ensures forall i :: 0 <= i < |data| ==> Snapshot(made[i]) == data[i]
    ensures forall i :: 0 <= i < |made| ==> fresh(made[i]) && fresh(made[i].Parts())
    ensures forall i, j :: 0 <= i < j < |made| ==> made[i].Parts() !! made[j].Parts()
  {
    made := [];
    for n := 0 to |data|
      invariant |made| == n
      invariant forall i :: 0 <= i < n ==> Snapshot(made[i]) == data[i]
      invariant forall i :: 0 <= i < n ==> fresh(made[i]) && fresh(made[i].Parts())
      invariant forall i, j :: 0 <= i < j < n ==> made[i].Parts() !! made[j].Parts()
    {
      var t := Instantiate(data[n]);
      made := made + [t];
    }
  }

  /** Storing five values under five distinct keys stores each under its own key. */
  lemma EachKeyHolds<V>(m: map<string, V>, keys: seq<string>, vs: seq<V>)
    requires |keys| == |vs| == 5
    requires forall j, j' :: 0 <= j < j' < |keys| ==> keys[j] != keys[j']
    requires m == map[keys[0] := vs[0], keys[1] := vs[1], keys[2] := vs[2], keys[3] := vs[3], keys[4] := vs[4]]
    ensures forall k :: k in m <==> k in keys
    ensures forall i :: 0 <= i < |keys| ==> keys[i] in m && m[keys[i]] == vs[i]
  {
  }

  // ---------------------------------------------------------------------
  // The registry key rule of `import_template` (templates.py:429)
  // ---------------------------------------------------------------------

  function LowerChar(c: char): (l: char)
    ensures !('A' <= l <= 'Z')
    ensures c != ' ' ==> l != ' '
  {
    if 'A' <= c <= 'Z' then (c as int - 'A' as int + 'a' as int) as char else c
  }

  /** The name lower-cased with every space replaced by an underscore. */
  function ImportKey(name: string): (key: string)
    ensures |key| == |name|
    ensures forall i :: 0 <= i < |key| ==> key[i] != ' ' && !('A' <= key[i] <= 'Z')
  {
    seq(|name|, i requires 0 <= i < |name| => if name[i] == ' ' then '_' else LowerChar(name[i]))
  }

  /** Keys are already normal: deriving a key from a key changes nothing. */
  lemma ImportKeyIdempotent(name: string)
    ensures ImportKey(ImportKey(name)) == ImportKey(name)
  {
    var key := ImportKey(name);
    forall i | 0 <= i < |key|
      ensures ImportKey(key)[i] == key[i]
    {
      assert key[i] != ' ' && !('A' <= key[i] <= 'Z');
    }
  }

  /** `name` normalises to `key`, checked character by character. */
  lemma NormalisesTo(name: string, key: string)
    requires |name| == |key|
    requires forall i :: 0 <= i < |name| ==> ImportKey(name)[i] == key[i]
    ensures ImportKey(name) == key
  {
  }

  // Each built-in template's display name normalises to the key it is
  // loaded under, so importing an export of a built-in replaces that
  // built-in rather than adding a second copy.

  lemma CryptoProfessionalKey()
    ensures ImportKey(CryptoProfessional().name) == DefaultKeys[0]
  {
    var key := ImportKey("Crypto Professional");
    forall i | 0 <= i < 19
      ensures key[i] == "crypto_professional"[i]
    {
    }
    NormalisesTo("Crypto Professional", "crypto_professional");
  }

  lemma ModernDarkKey()
    ensures ImportKey(ModernDark().name) == DefaultKeys[1]
  {
    var key := ImportKey("Modern Dark");
    forall i | 0 <= i < 11
      ensures key[i] == "modern_dark"[i]
    {
    }
    NormalisesTo("Modern Dark", "modern_dark");
  }

  lemma CorporateBlueKey()
    ensures ImportKey(CorporateBlue().name) == DefaultKeys[2]
  {
    var key := ImportKey("Corporate Blue");
    forall i | 0 <= i < 14
      ensures key[i] == "corporate_blue"[i]
    {
    }
    NormalisesTo("Corporate Blue", "corporate_blue");
  }

  lemma MinimalistKey()
    ensures ImportKey(Minimalist().name) == DefaultKeys[3]
  {
    var key := ImportKey("Minimalist");
    forall i | 0 <= i < 10
      ensures key[i] == "minimalist"[i]
    {
    }
    NormalisesTo("Minimalist", "minimalist");
  }

  lemma GamingStyleKey()
    ensures ImportKey(GamingStyle().name) == DefaultKeys[4]
  {
    var key := ImportKey("Gaming Style");
    forall i | 0 <= i < 12
      ensures key[i] == "gaming_style"[i]
    {
    }
    NormalisesTo("Gaming Style", "gaming_style");
  }

  // ---------------------------------------------------------------------
  // The manager (templates.py:89-95, 290-344, 417-436, 608-640)
  // ---------------------------------------------------------------------

  /** The modifications `customize_for_brand` assembles: colours as hex
      strings and fonts as strings, each only when given. */
  function BrandModifications(brandColors: seq<(string, string)>, brandFonts: seq<(string, string)>): (m: Modifications)
    ensures m.colors.Some? <==> brandColors != []
    ensures m.fonts.Some? <==> brandFonts != []
    ensures m.layout.None? && m.animations.None?
    ensures m.colors.Some? ==>
              |m.colors.value| == |brandColors| &&
              forall i :: 0 <= i < |brandColors| ==> m.colors.value[i].0 == brandColors[i].0 && m.colors.value[i].1.HexText?
    ensures m.fonts.Some? ==>
              |m.fonts.value| == |brandFonts| &&
              forall i :: 0 <= i < |brandFonts| ==> m.fonts.value[i].0 == brandFonts[i].0 && m.fonts.value[i].1.Str?
  {
    Modifications(
      if brandColors == [] then None
      else Some(seq(|brandColors|, i requires 0 <= i < |brandColors| => (brandColors[i].0, HexText(brandColors[i].1)))),
      if brandFonts == [] then None
      else Some(seq(|brandFonts|, i requires 0 <= i < |brandFonts| => (brandFonts[i].0, Str(brandFonts[i].1)))),
      None, None)
  }

  /** Records a non-empty logo path among a template's custom elements. */
  method RecordLogo(t: TemplateConfig, logoPath: string)
    modifies t
    ensures t.customElements == (if logoPath != "" then old(t.customElements)["brand_logo" := logoPath]
                                 else old(t.customElements))
    ensures t.name == old(t.name) && t.description == old(t.description) && t.slideLayouts == old(t.slideLayouts)
  {
    if logoPath != "" {
      t.customElements := t.customElements["brand_logo" := logoPath];
    }
  }

  class TemplateManager {
    /** The registry, and its keys in insertion order (a dictionary keeps
        the position of a key that is assigned again). */
    var templates: map<string, TemplateConfig>
    var order: seq<string>

    ghost predicate Valid()
      reads this
    {
      (forall i, j :: 0 <= i < j < |order| ==> order[i] != order[j]) &&
      (forall k :: k in templates <==> k in order)
    }

    /** Loads the five built-in templates in loading order, each with its
        own fresh sub-configuration objects (their contents are stated by
        `LoadBuiltIns`). */
    constructor ()
      ensures Valid()
      ensures order == DefaultKeys
      ensures forall k :: k in templates ==> fresh(templates[k]) && fresh(templates[k].Parts())
      ensures Separate(templates)
    {
      DefaultKeysDistinct();
      var loaded := LoadBuiltIns();
      templates := loaded;
      order := DefaultKeys;
    }

    /** `get_template`: the template under `name`, if any. */
    function GetTemplate(name: string): (r: Option<TemplateConfig>)
      reads this
      ensures r.Some? <==> name in templates
      ensures r.Some? ==> r.value == templates[name]
    {
      if name in templates then Some(templates[name]) else None
    }

    /** `get_available_templates`: every registry key, once each. */
    function GetAvailableTemplates(): (names: seq<string>)
      reads this
      requires Valid()
      ensures forall k :: k in names <==> k in templates
      ensures forall i, j :: 0 <= i < j < |names| ==> names[i] != names[j]
    {
      order
    }

    /** `create_custom_template`.  The new template shares the base's four
        sub-configuration objects and copies its layouts and custom elements;
        modifications therefore change the base too, and when a colour
        conversion fails the colours set so far stay changed while the new
        template is not stored. */
    method CreateCustomTemplate(name: string, base: string, mods: Modifications) returns (ok: bool)
      requires Valid()
      modifies this, if base in templates then templates[base].Parts() else {}
      ensures Valid()
      ensures base !in old(templates) ==> !ok && templates == old(templates) && order == old(order)
      ensures base in old(templates) ==>
                var b := old(templates[base]);
                var co := ColorsAfter(old(b.colorScheme.colors), mods.colors);
                ok == co.ok && b.colorScheme.colors == co.colors &&
                (ok ==> b.fontConfig.attrs == AttrsAfter(old(b.fontConfig.attrs), mods.fonts) &&
                        b.layoutConfig.attrs == AttrsAfter(old(b.layoutConfig.attrs), mods.layout) &&
                        b.animationConfig.attrs == AttrsAfter(old(b.animationConfig.attrs), mods.animations)) &&
                (!ok ==> unchanged(b.fontConfig, b.layoutConfig, b.animationConfig))
      ensures !ok ==> templates == old(templates) && order == old(order)
      ensures ok ==> name in templates && fresh(templates[name]) &&
                     templates == old(templates)[name := templates[name]] &&
                     order == (if name in old(templates) then old(order) else old(order) + [name])
      ensures ok ==> var t := templates[name]; var b := old(templates[base]);
                     t.Parts() == b.Parts() && t.name == name &&
                     t.description == "Custom template based on " + old(b.name) &&
                     t.slideLayouts == old(b.slideLayouts) && t.customElements == old(b.customElements)
    {
      if base !in templates {
        return false;
      }
      var b := templates[base];
      var custom := new TemplateConfig(name, "Custom template based on " + b.name, b.colorScheme, b.fontConfig,
                                       b.layoutConfig, b.animationConfig, b.slideLayouts, b.customElements);
      if mods != NoModifications {
        var applied := ApplyModifications(custom, mods);
        if !applied {
          return false;
        }
      }
      Store(name, custom);
      ok := true;
    }

    /** `customize_for_brand`: derives `<template>_branded` from an existing
        template with the brand's colours and fonts, and records the logo in
        the new template's own custom elements.  Returns the new name, or the
        empty string when the template is unknown or a colour is invalid. */
    method CustomizeForBrand(templateName: string, brandColors: seq<(string, string)>,
                             brandFonts: seq<(string, string)>, logoPath: string) returns (r: string)
      requires Valid()
      modifies this, if templateName in templates then templates[templateName].Parts() else {}
      ensures Valid()
      ensures templateName !in old(templates) ==> r == "" && templates == old(templates) && order == old(order)
      ensures templateName in old(templates) ==>
                var b := old(templates[templateName]);
                var co := ColorsAfter(old(b.colorScheme.colors), BrandModifications(brandColors, brandFonts).colors);
                b.colorScheme.colors == co.colors &&
                (co.ok ==> r == templateName + "_branded") && (!co.ok ==> r == "")
      ensures r == "" ==> templates == old(templates) && order == old(order)
      ensures r != "" ==>
                (r in templates && templateName in templates &&
                 templates[templateName] == old(templates[templateName]) &&
                 templates[templateName].customElements == old(templates[templateName].customElements) &&
                 templates[r].Parts() == templates[templateName].Parts() &&
                 templates[r].customElements ==
                   (if logoPath != "" then old(templates[templateName].customElements)["brand_logo" := logoPath]
                    else old(templates[templateName].customElements)))
      ensures r != "" ==>
                templates[r].name == r &&
                templates[r].description == "Custom template based on " + old(templates[templateName].name) &&
                templates[r].slideLayouts == old(templates[templateName].slideLayouts)
      ensures r != "" ==>
                r in templates && templates == old(templates)[r := templates[r]] &&
                order == (if r in old(templates) then old(order) else old(order) + [r])
      ensures templateName in old(templates) ==>
                var b := old(templates[templateName]);
                (r != "" ==>
                   b.fontConfig.attrs == AttrsAfter(old(b.fontConfig.attrs), BrandModifications(brandColors, brandFonts).fonts) &&
                   b.layoutConfig.attrs == old(b.layoutConfig.attrs) &&
                   b.animationConfig.attrs == old(b.animationConfig.attrs)) &&
                (r == "" ==> unchanged(b.fontConfig, b.layoutConfig, b.animationConfig))
    {
      if templateName !in templates {
        return "";
      }
      var customName := templateName + "_branded";
      assert customName != templateName by {
        assert |customName| > |templateName|;
      }
      var success := CreateCustomTemplate(customName, templateName, BrandModifications(brandColors, brandFonts));
      if success {
        assert templates[customName] != templates[templateName];
        RecordLogo(templates[customName], logoPath);
      }
      r := if success then customName else "";
    }

    /** The storing step of `import_template`: the parsed template (None
        when reading or converting the file failed) is renamed when a name
        is given and stored under its normalised name. */
    method ImportTemplate(parsed: Option<TemplateConfig>, templateName: string) returns (ok: bool)
      requires Valid()
      modifies this, if parsed.Some? then {parsed.value} else {}
      ensures Valid()
      ensures parsed.None? ==> !ok && templates == old(templates) && order == old(order)
      ensures parsed.Some? ==>
                (ok &&
                 parsed.value.name == (if templateName != "" then templateName else old(parsed.value.name)) &&
                 templates == old(templates)[ImportKey(parsed.value.name) := parsed.value] &&
                 order == (if ImportKey(parsed.value.name) in old(templates) then old(order)
                           else old(order) + [ImportKey(parsed.value.name)]))
      ensures parsed.Some? ==>
                (parsed.value.description == old(parsed.value.description) &&
                 parsed.value.slideLayouts == old(parsed.value.slideLayouts) &&
                 parsed.value.customElements == old(parsed.value.customElements))
    {
      if parsed.None? {
        return false;
      }
      var t := parsed.value;
      if templateName != "" {
        t.name := templateName;
      }
      Store(ImportKey(t.name), t);
      ok := true;
    }

    /** `templates[key] = t`: a new key goes to the end of the order, an
        existing key keeps its position. */
    method Store(key: string, t: TemplateConfig)
      requires Valid()
      modifies this
      ensures Valid()
      ensures templates == old(templates)[key := t]
      ensures order == (if key in old(templates) then old(order) else old(order) + [key])
    {
      if key !in templates {
        order := order + [key];
      }
      templates := templates[key := t];
    }
  }
}
