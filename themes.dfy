/**
 * The theme registry: the three palettes that `get_theme_colors` returns,
 * indexed by the theme name kept in the session.
 */
module Themes {
  import opened Options

  /** The closed set of theme identifiers offered by the sidebar selector. */
  datatype ThemeKey = Pastel | Neon | Glass

  /** One palette: five named colours and the ordered gradient list. */
  datatype Palette = Palette(
    primary: string,
    secondary: string,
    accent: string,
    background: string,
    text: string,
    gradients: seq<string>)

  predicate IsHexDigit(c: char) {
    '0' <= c <= '9' || 'A' <= c <= 'F' || 'a' <= c <= 'f'
  }

  /** A colour written `#RRGGBB`. */
  predicate IsHexColor(s: string) {
    && |s| == 7 && s[0] == '#'
    && IsHexDigit(s[1]) && IsHexDigit(s[2]) && IsHexDigit(s[3])
    && IsHexDigit(s[4]) && IsHexDigit(s[5]) && IsHexDigit(s[6])
  }

  /** Every field present, every colour a hex code, exactly five gradients. */
  predicate ValidPalette(p: Palette) {
    && IsHexColor(p.primary)
    && IsHexColor(p.secondary)
    && IsHexColor(p.accent)
    && IsHexColor(p.background)
    && IsHexColor(p.text)
    && |p.gradients| == 5
    && forall i :: 0 <= i < 5 ==> IsHexColor(p.gradients[i])
  }

  /** The name under which the session stores a theme. */
  function KeyName(k: ThemeKey): string {
    match k
    case Pastel => "pastel"
    case Neon => "neon"
    case Glass => "glass"
  }

  /** Reads a stored theme name back; any other string is not a theme. */
  function ParseKey(name: string): (r: Option<ThemeKey>)
    ensures r.Some? <==> name in {"pastel", "neon", "glass"}
    ensures r.Some? ==> KeyName(r.value) == name
  {
    if name == "pastel" then Some(Pastel)
    else if name == "neon" then Some(Neon)
    else if name == "glass" then Some(Glass)
    else None
  }

  lemma ParseKeyName(k: ThemeKey)
    ensures ParseKey(KeyName(k)) == Some(k)
  {
  }

  /** The three dictionary literals inside `get_theme_colors`. */
  const PastelPalette := Palette("#87CEEB", "#98FB98", "#F0A3C9", "#F8F8FF", "#4A4A4A",
    ["#87CEEB", "#98FB98", "#DDA0DD", "#F0E68C", "#FFB6C1"])
  const NeonPalette := Palette("#00FFFF", "#FF1493", "#FFD700", "#1A1A1A", "#FFFFFF",
    ["#00FFFF", "#FF1493", "#00FF00", "#FFD700", "#FF4500"])
  const GlassPalette := Palette("#6366F1", "#8B5CF6", "#EC4899", "#F1F5F9", "#334155",
    ["#6366F1", "#8B5CF6", "#EC4899", "#F59E0B", "#10B981"])

  lemma PastelPaletteValid()
    ensures ValidPalette(PastelPalette)
  {
  }

  lemma NeonPaletteValid()
    ensures ValidPalette(NeonPalette)
  {
  }

  lemma GlassPaletteValid()
    ensures ValidPalette(GlassPalette)
  {
  }

  /** The palette of one theme. */
  function ThemeColors(k: ThemeKey): (p: Palette)
    ensures ValidPalette(p)
    ensures p.gradients[0] == p.primary && p.gradients[1] == p.secondary
  {
    match k
    case Pastel => PastelPaletteValid(); PastelPalette
    case Neon => NeonPaletteValid(); NeonPalette
    case Glass => GlassPaletteValid(); GlassPalette
  }

  /** Dictionary lookup by stored name; only the three registered names resolve. */
  function LookupTheme(name: string): (r: Option<Palette>)
    ensures r.Some? <==> name in {"pastel", "neon", "glass"}
    ensures r.Some? ==> ValidPalette(r.value)
    ensures r.Some? ==> r.value == ThemeColors(ParseKey(name).value)
    ensures forall k :: name == KeyName(k) ==> r == Some(ThemeColors(k))
  {
    match ParseKey(name)
    case Some(k) => Some(ThemeColors(k))
    case None => None
  }

  /** Distinct themes have distinct palettes, so a palette identifies its theme. */
  lemma ThemeColorsInjective(a: ThemeKey, b: ThemeKey)
    ensures ThemeColors(a) == ThemeColors(b) <==> a == b
  {
    if a != b {
      assert ThemeColors(a).primary != ThemeColors(b).primary;
    }
  }
}
