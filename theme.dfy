/** The theme slice (src/features/theme/themeSlice.js): three display settings, a setter for
    each, and a shallow merge of a settings object. */
module Theme {
  import opened Wrappers

  datatype ThemeSettings = ThemeSettings(theme: string, colorScheme: string, fontSize: string)

  /** An `updateThemeSettings` payload: the keys it carries. Keys other than the three settings
      are not part of this model. */
  datatype ThemePatch = ThemePatch(theme: Option<string>, colorScheme: Option<string>, fontSize: Option<string>)

  const InitialSettings := ThemeSettings("light", "blue", "medium")

  /** `{ ...state, ...payload }`: a key the payload carries wins, every other key keeps its value. */
  function Merge(s: ThemeSettings, p: ThemePatch): (r: ThemeSettings)
    ensures p.theme.None? ==> r.theme == s.theme
    ensures p.colorScheme.None? ==> r.colorScheme == s.colorScheme
    ensures p.fontSize.None? ==> r.fontSize == s.fontSize
    ensures p.theme.Some? ==> Some(r.theme) == p.theme
    ensures p.colorScheme.Some? ==> Some(r.colorScheme) == p.colorScheme
    ensures p.fontSize.Some? ==> Some(r.fontSize) == p.fontSize
  {
    ThemeSettings(GetOr(p.theme, s.theme), GetOr(p.colorScheme, s.colorScheme), GetOr(p.fontSize, s.fontSize))
  }

  /** The payload of a single setter, as a patch. */
  function ThemeOnly(t: string): ThemePatch { ThemePatch(Some(t), None, None) }

  function ColorSchemeOnly(c: string): ThemePatch { ThemePatch(None, Some(c), None) }

  function FontSizeOnly(f: string): ThemePatch { ThemePatch(None, None, Some(f)) }

  /** Merging the same payload twice is merging it once. */
  lemma MergeIdempotent(s: ThemeSettings, p: ThemePatch)
    ensures Merge(Merge(s, p), p) == Merge(s, p)
  {
  }

  /** A payload that names all three settings replaces the state by exactly those values,
      whatever the state was. */
  lemma MergeFullPayload(s: ThemeSettings, t: string, c: string, f: string)
    ensures Merge(s, ThemePatch(Some(t), Some(c), Some(f))) == ThemeSettings(t, c, f)
  {
  }

  /** An empty payload changes nothing. */
  lemma MergeEmptyPayload(s: ThemeSettings)
    ensures Merge(s, ThemePatch(None, None, None)) == s
  {
  }

  /** Two single-setting payloads on different keys commute. */
  lemma SettersCommute(s: ThemeSettings, t: string, c: string, f: string)
    ensures Merge(Merge(s, ThemeOnly(t)), ColorSchemeOnly(c)) == Merge(Merge(s, ColorSchemeOnly(c)), ThemeOnly(t))
    ensures Merge(Merge(s, ThemeOnly(t)), FontSizeOnly(f)) == Merge(Merge(s, FontSizeOnly(f)), ThemeOnly(t))
    ensures Merge(Merge(s, ColorSchemeOnly(c)), FontSizeOnly(f)) == Merge(Merge(s, FontSizeOnly(f)), ColorSchemeOnly(c))
    ensures Merge(Merge(Merge(s, ThemeOnly(t)), ColorSchemeOnly(c)), FontSizeOnly(f)) == ThemeSettings(t, c, f)
  {
  }

  class ThemeStore {
    var theme: string
    var colorScheme: string
    var fontSize: string

    function Settings(): ThemeSettings
      reads this
    {
      ThemeSettings(theme, colorScheme, fontSize)
    }

    constructor()
      ensures Settings() == InitialSettings
    {
      theme := "light";
      colorScheme := "blue";
      fontSize := "medium";
    }

    /** `setTheme`: only `theme` changes. */
    method SetTheme(t: string)
      modifies this
      ensures theme == t && colorScheme == old(colorScheme) && fontSize == old(fontSize)
      ensures Settings() == Merge(old(Settings()), ThemeOnly(t))
    {
      theme := t;
    }

    /** `setColorScheme`: only `colorScheme` changes. */
    method SetColorScheme(c: string)
      modifies this
      ensures colorScheme == c && theme == old(theme) && fontSize == old(fontSize)
      ensures Settings() == Merge(old(Settings()), ColorSchemeOnly(c))
    {
      colorScheme := c;
    }

    /** `setFontSize`: only `fontSize` changes. */
    method SetFontSize(f: string)
      modifies this
      ensures fontSize == f && theme == old(theme) && colorScheme == old(colorScheme)
      ensures Settings() == Merge(old(Settings()), FontSizeOnly(f))
    {
      fontSize := f;
    }

    /** `updateThemeSettings`: the state becomes the merge of the old state and the payload. */
    method UpdateThemeSettings(p: ThemePatch)
      modifies this
      ensures Settings() == Merge(old(Settings()), p)
    {
      var merged := Merge(Settings(), p);
      theme, colorScheme, fontSize := merged.theme, merged.colorScheme, merged.fontSize;
    }
  }
}
