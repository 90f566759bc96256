/**
 * The stand-alone theme toggle (`components/common/ThemeToggle.tsx`). Its
 * icon and label distinguish only light and dark, while the context it
 * calls cycles through three themes.
 */
module ThemeToggle {
  import opened ThemeContext
  import Header

  /** `getThemeIcon`: a moon except in the dark theme, which shows a sun. */
  function ThemeIcon(t: Theme): (r: string)
    ensures r == "☀️" <==> t == Dark
    ensures t != Dark ==> r == "🌙"
  {
    match t
    case Light => "🌙"
    case Dark => "☀️"
    case _ => "🌙"
  }

  /** `getNextThemeName` as written: a two-theme switch with `escuro` as its default. */
  function NextThemeName(t: Theme): string {
    match t
    case Light => "escuro"
    case Dark => "claro"
    case _ => "escuro"
  }

  /** The `aria-label` and the `title` are the same text. */
  function Label(t: Theme): string {
    "Alternar para tema " + NextThemeName(t)
  }

  /**
   * The label names the theme a click actually moves to only in the light
   * theme: from dark the click goes to high contrast, not light, and from
   * high contrast it goes to light, not dark.
   */
  lemma LabelMatchesToggleOnlyFromLight(t: Theme)
    ensures NextThemeName(t) == ThemeName(Next(t)) <==> t == Light
  {
    if t != Light {
      ThemeNameInjective(if t == Dark then Light else Dark, Next(t));
    }
  }

  /** Concretely: in the dark theme the button promises "claro" and the click yields high contrast. */
  lemma DarkThemeLabelMisleads()
    ensures Label(Dark) == "Alternar para tema claro"
    ensures Next(Dark) == HighContrast
  {
  }

  /** The corrected label names the successor the context will set, as the header's button does. */
  function CorrectedNextThemeName(t: Theme): (r: string)
    ensures r == ThemeName(Next(t))
  {
    Header.NextThemeLabel(t)
  }

  function CorrectedLabel(t: Theme): (r: string)
    ensures r == Header.AriaLabel(t)
  {
    "Alternar para tema " + CorrectedNextThemeName(t)
  }
}
