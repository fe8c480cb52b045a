/**
 * The theme provider: a fixed table of colour themes, the choice of the
 * current one, its persistence in the browser's local storage under
 * `selectedTheme`, and its application to the document's root element as
 * CSS custom properties (`primaryForeground` becomes `--primary-foreground`).
 *
 * Local storage and the root element's style are maps held by the provider
 * class; the functions over `Provider` say what each operation does to them.
 */
module ThemeContext {

  import opened Wrappers
  import opened Text

  /** A theme: its id, its display name and description, and its colours. */
  datatype Theme = Theme(id: string, name: string, description: string, colors: Palette)

  /** The 28 colour slots of a theme, in declaration order. */
  datatype Palette = Palette(
    background: string,
    foreground: string,
    card: string,
    cardForeground: string,
    popover: string,
    popoverForeground: string,
    primary: string,
    primaryForeground: string,
    primaryHover: string,
    secondary: string,
    secondaryForeground: string,
    muted: string,
    mutedForeground: string,
    accent: string,
    accentForeground: string,
    success: string,
    successForeground: string,
    warning: string,
    warningForeground: string,
    destructive: string,
    destructiveForeground: string,
    border: string,
    input: string,
    ring: string,
    gradientPrimary: string,
    gradientCard: string,
    gradientSuccess: string,
    gradientWarning: string)

  /** The colour slot names, in the order `Object.entries` lists them. */
  const ColorKeys: seq<string> := [
    "background", "foreground", "card", "cardForeground",
    "popover", "popoverForeground", "primary", "primaryForeground",
    "primaryHover", "secondary", "secondaryForeground", "muted",
    "mutedForeground", "accent", "accentForeground", "success",
    "successForeground", "warning", "warningForeground", "destructive",
    "destructiveForeground", "border", "input", "ring",
    "gradientPrimary", "gradientCard", "gradientSuccess", "gradientWarning"
  ]

  /** The colour values of a palette, in declaration order. */
  function Values(p: Palette): (r: seq<string>)
    ensures |r| == |ColorKeys|
  {
    [
      p.background, p.foreground, p.card, p.cardForeground,
      p.popover, p.popoverForeground, p.primary, p.primaryForeground,
      p.primaryHover, p.secondary, p.secondaryForeground, p.muted,
      p.mutedForeground, p.accent, p.accentForeground, p.success,
      p.successForeground, p.warning, p.warningForeground, p.destructive,
      p.destructiveForeground, p.border, p.input, p.ring,
      p.gradientPrimary, p.gradientCard, p.gradientSuccess, p.gradientWarning
    ]
  }

  /** `Object.entries(theme.colors)`: every slot paired with its value, in declaration order. */
  function Entries(p: Palette): (r: seq<(string, string)>)
    ensures |r| == |ColorKeys|
  {
    seq(|ColorKeys|, i requires 0 <= i < |ColorKeys| => (ColorKeys[i], Values(p)[i]))
  }

  const DefaultColors: Palette := Palette(
    "220 20% 98%",
    "220 15% 15%",
    "0 0% 100%",
    "220 15% 15%",
    "0 0% 100%",
    "220 15% 15%",
    "230 60% 55%",
    "0 0% 100%",
    "230 60% 50%",
    "220 15% 96%",
    "220 15% 15%",
    "220 15% 95%",
    "220 10% 55%",
    "265 70% 65%",
    "0 0% 100%",
    "140 60% 50%",
    "0 0% 100%",
    "35 90% 60%",
    "0 0% 100%",
    "0 84% 60%",
    "0 0% 100%",
    "220 15% 90%",
    "220 15% 95%",
    "230 60% 55%",
    "linear-gradient(135deg, hsl(230 60% 55%), hsl(265 70% 65%))",
    "linear-gradient(145deg, hsl(0 0% 100%), hsl(220 15% 98%))",
    "linear-gradient(135deg, hsl(140 60% 50%), hsl(160 50% 45%))",
    "linear-gradient(135deg, hsl(35 90% 60%), hsl(25 85% 55%))")

  const EmeraldColors: Palette := Palette(
    "138 20% 97%",
    "138 15% 15%",
    "0 0% 100%",
    "138 15% 15%",
    "0 0% 100%",
    "138 15% 15%",
    "160 84% 39%",
    "0 0% 100%",
    "160 84% 35%",
    "138 15% 96%",
    "138 15% 15%",
    "138 15% 95%",
    "138 10% 55%",
    "142 76% 36%",
    "0 0% 100%",
    "120 60% 50%",
    "0 0% 100%",
    "35 90% 60%",
    "0 0% 100%",
    "0 84% 60%",
    "0 0% 100%",
    "138 15% 90%",
    "138 15% 95%",
    "160 84% 39%",
    "linear-gradient(135deg, hsl(160 84% 39%), hsl(142 76% 36%))",
    "linear-gradient(145deg, hsl(0 0% 100%), hsl(138 15% 98%))",
    "linear-gradient(135deg, hsl(120 60% 50%), hsl(140 50% 45%))",
    "linear-gradient(135deg, hsl(35 90% 60%), hsl(25 85% 55%))")

  const SunsetColors: Palette := Palette(
    "25 20% 97%",
    "25 15% 15%",
    "0 0% 100%",
    "25 15% 15%",
    "0 0% 100%",
    "25 15% 15%",
    "20 91% 48%",
    "0 0% 100%",
    "20 91% 44%",
    "25 15% 96%",
    "25 15% 15%",
    "25 15% 95%",
    "25 10% 55%",
    "12 76% 61%",
    "0 0% 100%",
    "140 60% 50%",
    "0 0% 100%",
    "45 93% 47%",
    "0 0% 100%",
    "0 84% 60%",
    "0 0% 100%",
    "25 15% 90%",
    "25 15% 95%",
    "20 91% 48%",
    "linear-gradient(135deg, hsl(20 91% 48%), hsl(12 76% 61%))",
    "linear-gradient(145deg, hsl(0 0% 100%), hsl(25 15% 98%))",
    "linear-gradient(135deg, hsl(140 60% 50%), hsl(160 50% 45%))",
    "linear-gradient(135deg, hsl(45 93% 47%), hsl(35 85% 55%))")

  const OceanColors: Palette := Palette(
    "195 20% 97%",
    "195 15% 15%",
    "0 0% 100%",
    "195 15% 15%",
    "0 0% 100%",
    "195 15% 15%",
    "194 100% 27%",
    "0 0% 100%",
    "194 100% 23%",
    "195 15% 96%",
    "195 15% 15%",
    "195 15% 95%",
    "195 10% 55%",
    "175 60% 33%",
    "0 0% 100%",
    "140 60% 50%",
    "0 0% 100%",
    "35 90% 60%",
    "0 0% 100%",
    "0 84% 60%",
    "0 0% 100%",
    "195 15% 90%",
    "195 15% 95%",
    "194 100% 27%",
    "linear-gradient(135deg, hsl(194 100% 27%), hsl(175 60% 33%))",
    "linear-gradient(145deg, hsl(0 0% 100%), hsl(195 15% 98%))",
    "linear-gradient(135deg, hsl(140 60% 50%), hsl(160 50% 45%))",
    "linear-gradient(135deg, hsl(35 90% 60%), hsl(25 85% 55%))")

  const PurpleColors: Palette := Palette(
    "280 20% 97%",
    "280 15% 15%",
    "0 0% 100%",
    "280 15% 15%",
    "0 0% 100%",
    "280 15% 15%",
    "271 91% 65%",
    "0 0% 100%",
    "271 91% 61%",
    "280 15% 96%",
    "280 15% 15%",
    "280 15% 95%",
    "280 10% 55%",
    "283 67% 55%",
    "0 0% 100%",
    "140 60% 50%",
    "0 0% 100%",
    "35 90% 60%",
    "0 0% 100%",
    "0 84% 60%",
    "0 0% 100%",
    "280 15% 90%",
    "280 15% 95%",
    "271 91% 65%",
    "linear-gradient(135deg, hsl(271 91% 65%), hsl(283 67% 55%))",
    "linear-gradient(145deg, hsl(0 0% 100%), hsl(280 15% 98%))",
    "linear-gradient(135deg, hsl(140 60% 50%), hsl(160 50% 45%))",
    "linear-gradient(135deg, hsl(35 90% 60%), hsl(25 85% 55%))")

  const RoseColors: Palette := Palette(
    "340 20% 97%",
    "340 15% 15%",
    "0 0% 100%",
    "340 15% 15%",
    "0 0% 100%",
    "340 15% 15%",
    "330 81% 60%",
    "0 0% 100%",
    "330 81% 56%",
    "340 15% 96%",
    "340 15% 15%",
    "340 15% 95%",
    "340 10% 55%",
    "336 84% 57%",
    "0 0% 100%",
    "140 60% 50%",
    "0 0% 100%",
    "35 90% 60%",
    "0 0% 100%",
    "0 84% 60%",
    "0 0% 100%",
    "340 15% 90%",
    "340 15% 95%",
    "330 81% 60%",
    "linear-gradient(135deg, hsl(330 81% 60%), hsl(336 84% 57%))",
    "linear-gradient(145deg, hsl(0 0% 100%), hsl(340 15% 98%))",
    "linear-gradient(135deg, hsl(140 60% 50%), hsl(160 50% 45%))",
    "linear-gradient(135deg, hsl(35 90% 60%), hsl(25 85% 55%))")

  const MidnightColors: Palette := Palette(
    "220 13% 9%",
    "220 13% 91%",
    "220 13% 11%",
    "220 13% 91%",
    "220 13% 11%",
    "220 13% 91%",
    "217 91% 60%",
    "220 13% 9%",
    "217 91% 56%",
    "220 13% 15%",
    "220 13% 91%",
    "220 13% 15%",
    "220 5% 65%",
    "229 84% 5%",
    "220 13% 91%",
    "140 60% 50%",
    "0 0% 100%",
    "35 90% 60%",
    "0 0% 100%",
    "0 84% 60%",
    "0 0% 100%",
    "220 13% 20%",
    "220 13% 15%",
    "217 91% 60%",
    "linear-gradient(135deg, hsl(217 91% 60%), hsl(229 84% 5%))",
    "linear-gradient(145deg, hsl(220 13% 11%), hsl(220 13% 13%))",
    "linear-gradient(135deg, hsl(140 60% 50%), hsl(160 50% 45%))",
    "linear-gradient(135deg, hsl(35 90% 60%), hsl(25 85% 55%))")

  const WarmColors: Palette := Palette(
    "33 20% 95%",
    "33 15% 20%",
    "33 25% 98%",
    "33 15% 20%",
    "33 25% 98%",
    "33 15% 20%",
    "25 76% 31%",
    "0 0% 100%",
    "25 76% 27%",
    "33 15% 92%",
    "33 15% 20%",
    "33 15% 90%",
    "33 10% 50%",
    "36 64% 57%",
    "0 0% 100%",
    "140 60% 50%",
    "0 0% 100%",
    "43 96% 56%",
    "0 0% 100%",
    "0 84% 60%",
    "0 0% 100%",
    "33 15% 85%",
    "33 15% 90%",
    "25 76% 31%",
    "linear-gradient(135deg, hsl(25 76% 31%), hsl(36 64% 57%))",
    "linear-gradient(145deg, hsl(33 25% 98%), hsl(33 15% 95%))",
    "linear-gradient(135deg, hsl(140 60% 50%), hsl(160 50% 45%))",
    "linear-gradient(135deg, hsl(43 96% 56%), hsl(35 85% 55%))")

  const DefaultTheme: Theme := Theme("default", "Professional Blue", "Clean and professional blue theme", DefaultColors)
  const EmeraldTheme: Theme := Theme("emerald", "Emerald Garden", "Fresh and nature-inspired green theme", EmeraldColors)
  const SunsetTheme: Theme := Theme("sunset", "Sunset Orange", "Warm and energetic orange theme", SunsetColors)
  const OceanTheme: Theme := Theme("ocean", "Ocean Deep", "Calming and sophisticated teal theme", OceanColors)
  const PurpleTheme: Theme := Theme("purple", "Royal Purple", "Elegant and luxurious purple theme", PurpleColors)
  const RoseTheme: Theme := Theme("rose", "Rose Garden", "Soft and romantic pink theme", RoseColors)
  const MidnightTheme: Theme := Theme("midnight", "Midnight Dark", "Sleek and modern dark theme", MidnightColors)
  const WarmTheme: Theme := Theme("warm", "Warm Sepia", "Cozy and vintage-inspired warm theme", WarmColors)

  /** The themes the dashboard offers, in order; the first is the default. */
  const Themes: seq<Theme> := [DefaultTheme, EmeraldTheme, SunsetTheme, OceanTheme, PurpleTheme, RoseTheme, MidnightTheme, WarmTheme]

  /** `themes.find(t => t.id === id)`: the first theme with the id, if there is one. */
  function Find(themes: seq<Theme>, id: string): (r: Option<Theme>)
    ensures r.None? <==> forall k :: 0 <= k < |themes| ==> themes[k].id != id
    ensures r.Some? ==> exists k :: 0 <= k < |themes| && themes[k] == r.value && r.value.id == id
                                    && forall j :: 0 <= j < k ==> themes[j].id != id
  {
    if themes == [] then None
    else if themes[0].id == id then Some(themes[0])
    else
      var r := Find(themes[1..], id);
      assert forall k :: 1 <= k < |themes| ==> themes[k] == themes[1..][k - 1];
      r
  }

  /** No two themes share an id. */
  predicate DistinctIds(themes: seq<Theme>)
  {
    forall i, j :: 0 <= i < j < |themes| ==> themes[i].id != themes[j].id
  }

  lemma ThemeIds()
    ensures |Themes| == 8
    ensures DistinctIds(Themes)
    ensures Themes[0].id == "default"
    ensures NonEmptyIds(Themes)
  {
  }

  /** With distinct ids, looking a theme up by its own id finds that theme. */
  lemma {:induction false} FindOwnId(themes: seq<Theme>, k: int)
    requires DistinctIds(themes)
    requires 0 <= k < |themes|
    ensures Find(themes, themes[k].id) == Some(themes[k])
  {
    if k > 0 {
      var rest := themes[1..];
      assert themes[0].id != themes[k].id;
      assert rest[k - 1] == themes[k];
      assert DistinctIds(rest) by {
        forall i, j | 0 <= i < j < |rest| ensures rest[i].id != rest[j].id {
          assert rest[i] == themes[i + 1] && rest[j] == themes[j + 1];
        }
      }
      FindOwnId(rest, k - 1);
    }
  }

  // ---- CSS custom property names ----

  /** `key.replace(/([A-Z])/g, '-$1')`: a dash before every upper-case letter. */
  function Dashed(key: string): string
  {
    if key == [] then []
    else (if IsUpper(key[0]) then ['-', key[0]] else [key[0]]) + Dashed(key[1..])
  }

  /** The custom property a colour slot is written to. */
  function CssVar(key: string): (r: string)
    ensures |r| >= 2 && r[..2] == "--"
    ensures forall i :: 0 <= i < |r| ==> !IsUpper(r[i])
  {
    "--" + LowerStr(Dashed(key))
  }

  function Upper(c: char): char
  {
    if IsLower(c) then (c as int - 32) as char else c
  }

  /** Reads a dashed lower-case name back: a dash and a letter become the upper-case letter. */
  function Undashed(name: string): string
  {
    if |name| >= 2 && name[0] == '-' then [Upper(name[1])] + Undashed(name[2..])
    else if name == [] then []
    else [name[0]] + Undashed(name[1..])
  }

  lemma LowerStrAppend(a: string, b: string)
    ensures LowerStr(a + b) == LowerStr(a) + LowerStr(b)
  {
  }

  /** A dash-free key is recovered from its property name, so the conversion loses nothing. */
  lemma {:induction false} UndashedRoundTrip(key: string)
    requires '-' !in key
    ensures Undashed(LowerStr(Dashed(key))) == key
  {
    if key != [] {
      var c := key[0];
      var rest := key[1..];
      assert '-' !in rest by {
        assert forall i :: 0 <= i < |rest| ==> rest[i] == key[i + 1];
      }
      var head := if IsUpper(c) then ['-', c] else [c];
      assert Dashed(key) == head + Dashed(rest);
      LowerStrAppend(head, Dashed(rest));
      var tail := LowerStr(Dashed(rest));
      UndashedRoundTrip(rest);
      if IsUpper(c) {
        assert LowerStr(head) == ['-', Lower(c)];
        assert (['-', Lower(c)] + tail)[2..] == tail;
        assert Upper(Lower(c)) == c;
      } else {
        assert LowerStr(head) == [c];
        assert ([c] + tail)[1..] == tail;
      }
    }
  }

  /** Different dash-free keys are written to different properties. */
  lemma CssVarInjective(a: string, b: string)
    requires '-' !in a && '-' !in b
    requires CssVar(a) == CssVar(b)
    ensures a == b
  {
    assert LowerStr(Dashed(a)) == CssVar(a)[2..];
    assert LowerStr(Dashed(b)) == CssVar(b)[2..];
    UndashedRoundTrip(a);
    UndashedRoundTrip(b);
  }

  lemma ColorKeysDistinct()
    ensures forall i, j :: 0 <= i < j < |ColorKeys| ==> ColorKeys[i] != ColorKeys[j]
  {
  }

  lemma ColorKeysDashFree()
    ensures forall i :: 0 <= i < |ColorKeys| ==> '-' !in ColorKeys[i]
  {
  }

  /** The 28 colour slots go to 28 different properties. */
  lemma ColorPropertiesDistinct()
    ensures forall i, j :: 0 <= i < j < |ColorKeys| ==> CssVar(ColorKeys[i]) != CssVar(ColorKeys[j])
  {
    ColorKeysDistinct();
    ColorKeysDashFree();
    forall i, j | 0 <= i < j < |ColorKeys|
      ensures CssVar(ColorKeys[i]) != CssVar(ColorKeys[j])
    {
      if CssVar(ColorKeys[i]) == CssVar(ColorKeys[j]) {
        CssVarInjective(ColorKeys[i], ColorKeys[j]);
      }
    }
  }

  // ---- applying a theme ----

  /** The root element's style after `setProperty` for each entry in turn. */
  function ApplyAll(style: map<string, string>, entries: seq<(string, string)>): map<string, string>
  {
    if entries == [] then style
    else
      var last := entries[|entries| - 1];
      ApplyAll(style, entries[..|entries| - 1])[CssVar(last.0) := last.1]
  }

  /** Every entry of a list whose property names differ ends up in the style with its own value. */
  lemma {:induction false} ApplyAllSets(style: map<string, string>, entries: seq<(string, string)>, k: int)
    requires forall i, j :: 0 <= i < j < |entries| ==> CssVar(entries[i].0) != CssVar(entries[j].0)
    requires 0 <= k < |entries|
    ensures CssVar(entries[k].0) in ApplyAll(style, entries)
    ensures ApplyAll(style, entries)[CssVar(entries[k].0)] == entries[k].1
  {
    var n := |entries| - 1;
    if k < n {
      var front := entries[..n];
      assert front[k] == entries[k];
      ApplyAllSets(style, front, k);
    }
  }

  /** A property no entry names keeps whatever it had. */
  lemma {:induction false} ApplyAllElsewhere(style: map<string, string>, entries: seq<(string, string)>, name: string)
    requires forall i :: 0 <= i < |entries| ==> CssVar(entries[i].0) != name
    ensures name in ApplyAll(style, entries) <==> name in style
    ensures name in style ==> ApplyAll(style, entries)[name] == style[name]
  {
    if entries != [] {
      var front := entries[..|entries| - 1];
      assert forall i :: 0 <= i < |front| ==> front[i] == entries[i];
      ApplyAllElsewhere(style, front, name);
    }
  }

  /** The style shows every colour of the theme under its property. */
  predicate Shows(style: map<string, string>, theme: Theme)
  {
    forall i :: 0 <= i < |ColorKeys| ==>
      CssVar(ColorKeys[i]) in style && style[CssVar(ColorKeys[i])] == Values(theme.colors)[i]
  }

  /** One of the 28 properties a theme writes. */
  predicate ColorProperty(name: string)
  {
    exists i :: 0 <= i < |ColorKeys| && CssVar(ColorKeys[i]) == name
  }

  /** Applying a theme shows all its colours and leaves every other property alone. */
  lemma Applied(style: map<string, string>, theme: Theme)
    ensures Shows(ApplyAll(style, Entries(theme.colors)), theme)
    ensures forall name :: !ColorProperty(name) ==>
      (name in ApplyAll(style, Entries(theme.colors)) <==> name in style)
    ensures forall name :: !ColorProperty(name) && name in style ==>
      ApplyAll(style, Entries(theme.colors))[name] == style[name]
  {
    var entries := Entries(theme.colors);
    ColorPropertiesDistinct();
    forall i | 0 <= i < |ColorKeys|
      ensures CssVar(ColorKeys[i]) in ApplyAll(style, entries)
      ensures ApplyAll(style, entries)[CssVar(ColorKeys[i])] == entries[i].1
    {
      ApplyAllSets(style, entries, i);
    }
    forall name | !ColorProperty(name)
      ensures name in ApplyAll(style, entries) <==> name in style
      ensures name in style ==> ApplyAll(style, entries)[name] == style[name]
    {
      ApplyAllElsewhere(style, entries, name);
    }
  }

  // ---- the provider ----

  /** The local-storage key the chosen theme id is kept under. */
  const StorageKey := "selectedTheme"

  /** What the provider holds and touches: the current theme, local storage and the root element's style. */
  datatype Provider = Provider(current: Theme, storage: map<string, string>, style: map<string, string>)

  /** `setTheme` over the table `themes`: a known id becomes current, is stored and applied; an unknown id changes nothing. */
  function AfterSetTheme(themes: seq<Theme>, p: Provider, id: string): Provider
  {
    match Find(themes, id)
    case None => p
    case Some(theme) => Provider(theme, p.storage[StorageKey := id], ApplyAll(p.style, Entries(theme.colors)))
  }

  /** `getItem` yields a value JavaScript treats as true: the key is stored with a non-empty value. */
  predicate Saved(storage: map<string, string>)
  {
    StorageKey in storage && storage[StorageKey] != ""
  }

  /**
   * The mount effect: a saved id that names a theme restores and applies it;
   * a saved id that names none applies nothing; without a saved id the
   * current theme is applied.
   */
  function AfterMount(themes: seq<Theme>, p: Provider): Provider
  {
    if Saved(p.storage) then
      match Find(themes, p.storage[StorageKey])
      case None => p
      case Some(theme) => p.(current := theme, style := ApplyAll(p.style, Entries(theme.colors)))
    else p.(style := ApplyAll(p.style, Entries(p.current.colors)))
  }

  /** A known id becomes current, is stored under the key, and all its colours are shown; an unknown one changes nothing. */
  lemma SetThemeEffect(themes: seq<Theme>, p: Provider, id: string)
    ensures Find(themes, id).None? ==> AfterSetTheme(themes, p, id) == p
    ensures Find(themes, id).Some? ==>
      && AfterSetTheme(themes, p, id).current.id == id
      && AfterSetTheme(themes, p, id).current in themes
      && AfterSetTheme(themes, p, id).storage == p.storage[StorageKey := id]
      && Shows(AfterSetTheme(themes, p, id).style, AfterSetTheme(themes, p, id).current)
  {
    if Find(themes, id).Some? {
      Applied(p.style, Find(themes, id).value);
    }
  }

  /** With distinct ids, choosing the id of any entry of the table makes exactly that entry current. */
  lemma SetThemeByEntry(themes: seq<Theme>, p: Provider, k: int)
    requires DistinctIds(themes)
    requires 0 <= k < |themes|
    ensures AfterSetTheme(themes, p, themes[k].id).current == themes[k]
  {
    FindOwnId(themes, k);
  }

  /** Every theme has an id JavaScript treats as true. */
  predicate NonEmptyIds(themes: seq<Theme>)
  {
    forall k :: 0 <= k < |themes| ==> themes[k].id != ""
  }

  /** A theme chosen once is restored by the next mount, whatever the style holds then. */
  lemma {:induction false} ChoiceSurvivesReload(themes: seq<Theme>, p: Provider, id: string, q: Provider)
    requires NonEmptyIds(themes)
    requires Find(themes, id).Some?
    requires q.storage == AfterSetTheme(themes, p, id).storage
    ensures AfterMount(themes, q).current == AfterSetTheme(themes, p, id).current
    ensures Shows(AfterMount(themes, q).style, AfterMount(themes, q).current)
  {
    assert id != "";
    assert q.storage[StorageKey] == id;
    Applied(q.style, Find(themes, id).value);
  }

  /** A saved id that names no theme leaves the provider untouched: nothing is applied. */
  lemma MountUnknownSaved(themes: seq<Theme>, p: Provider)
    requires Saved(p.storage) && Find(themes, p.storage[StorageKey]).None?
    ensures AfterMount(themes, p) == p
  {
  }

  /** Without a saved id the current theme stays and is applied. */
  lemma MountWithoutSaved(themes: seq<Theme>, p: Provider)
    requires !Saved(p.storage)
    ensures AfterMount(themes, p).current == p.current && AfterMount(themes, p).storage == p.storage
    ensures Shows(AfterMount(themes, p).style, p.current)
  {
    Applied(p.style, p.current);
  }

  /** Mounting never writes to local storage, and the theme it makes current comes from the table. */
  lemma MountKeepsStorage(themes: seq<Theme>, p: Provider)
    ensures AfterMount(themes, p).storage == p.storage
    ensures AfterMount(themes, p).current in themes || AfterMount(themes, p).current == p.current
  {
  }

  /**
   * The provider component: the theme table it offers, its `currentTheme`
   * state, and the local storage and root style it writes through.
   */
  class ThemeProvider {
    const themes: seq<Theme>
    var currentTheme: Theme
    var storage: map<string, string>
    var style: map<string, string>

    function State(): Provider
      reads this
    {
      Provider(currentTheme, storage, style)
    }

    /** The provider starts on the first theme of the table, the default one. */
    constructor (storage: map<string, string>, style: map<string, string>)
      ensures themes == Themes
      ensures State() == Provider(Themes[0], storage, style)
      ensures currentTheme.id == "default"
    {
      themes := Themes;
      currentTheme := Themes[0];
      this.storage := storage;
      this.style := style;
    }

    /** One `setProperty` per entry, in order. */
    method SetProperties(entries: seq<(string, string)>)
      modifies this
      ensures State() == old(State()).(style := ApplyAll(old(style), entries))
    {
      var i := 0;
      while i < |entries|
        invariant 0 <= i <= |entries|
        invariant style == ApplyAll(old(style), entries[..i])
        invariant currentTheme == old(currentTheme) && storage == old(storage)
      {
        assert entries[..i + 1][..i] == entries[..i];
        style := style[CssVar(entries[i].0) := entries[i].1];
        i := i + 1;
      }
      assert entries[..i] == entries;
    }

    /** `applyTheme`: every colour slot of the theme, in declaration order. */
    method ApplyTheme(theme: Theme)
      modifies this
      ensures State() == old(State()).(style := ApplyAll(old(style), Entries(theme.colors)))
    {
      SetProperties(Entries(theme.colors));
    }

    method SetTheme(themeId: string)
      modifies this
      ensures State() == AfterSetTheme(themes, old(State()), themeId)
    {
      var found := Find(themes, themeId);
      if found.Some? {
        currentTheme := found.value;
        storage := storage[StorageKey := themeId];
        ApplyTheme(found.value);
      }
    }

    /** The effect that runs once when the provider mounts. */
    method Mount()
      modifies this
      ensures State() == AfterMount(themes, old(State()))
    {
      if StorageKey in storage && storage[StorageKey] != "" {
        var found := Find(themes, storage[StorageKey]);
        if found.Some? {
          currentTheme := found.value;
          ApplyTheme(found.value);
        }
      } else {
        ApplyTheme(currentTheme);
      }
    }
  }
}
