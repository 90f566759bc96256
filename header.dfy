/**
 * The page header (`components/layout/Header.tsx`): the skip link it
 * renders first and the theme button whose label and icon follow the
 * current theme.
 */
module Header {
  import opened ThemeContext

  /** The id the header's skip link targets; the main landmark carries it. */
  const SkipTarget: string := "main-content"

  /** The theme named in the button's label: the one a click moves to. */
  function NextThemeLabel(t: Theme): string {
    if t == Light then "escuro"
    else if t == Dark then "alto contraste"
    else "claro"
  }

  /** The button's `aria-label` announces the theme that `toggleTheme` will set. */
  function AriaLabel(t: Theme): (r: string)
    ensures r == "Alternar para tema " + ThemeName(Next(t))
  {
    "Alternar para tema " + NextThemeLabel(t)
  }

  /**
   * The three conditional children `{theme === 'light' && '🌙'}` and so on;
   * a false condition renders nothing, written here as "".
   */
  function RenderedIcons(t: Theme): seq<string> {
    [if t == Light then "🌙" else "",
     if t == Dark then "🌞" else "",
     if t == HighContrast then "🔆" else ""]
  }

  /** Exactly one of the three icon slots is non-empty, and it is the current theme's. */
  lemma ExactlyOneIcon(t: Theme)
    ensures |RenderedIcons(t)| == 3
    ensures forall i :: 0 <= i < 3 ==> (RenderedIcons(t)[i] != "" <==> [Light, Dark, HighContrast][i] == t)
  {
  }

  /** The label after a click already names the theme after that: the button is always one step ahead. */
  lemma LabelTracksToggle(t: Theme)
    ensures AriaLabel(t) != AriaLabel(Next(t))
    ensures AriaLabel(Next(Next(t))) == "Alternar para tema " + ThemeName(t)
  {
    CycleHasPeriodThree(t);
  }
}
