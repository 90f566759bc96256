/**
 * The site's theme state machine (`contexts/ThemeContext.tsx`): initial
 * resolution from storage and the system preference, the three-way cycle,
 * and the effect that mirrors every new theme into storage, the body class
 * and the announcement region.
 */
module ThemeContext {
  import opened Wrappers
  import opened Dom

  datatype Theme = Light | Dark | HighContrast

  /** The string form of a theme, as stored and as used in class names. */
  function ThemeId(t: Theme): string {
    match t
    case Light => "light"
    case Dark => "dark"
    case HighContrast => "high-contrast"
  }

  /** The membership test `['light', 'dark', 'high-contrast'].includes(saved)`, returning the theme it names. */
  function ParseTheme(s: string): (r: Option<Theme>)
    ensures r.Some? ==> ThemeId(r.value) == s
  {
    if s == "light" then Some(Light)
    else if s == "dark" then Some(Dark)
    else if s == "high-contrast" then Some(HighContrast)
    else None
  }

  /** Every theme's string parses back to it. */
  lemma ThemeIdRoundTrip(t: Theme)
    ensures ParseTheme(ThemeId(t)) == Some(t)
  {
  }

  const StorageKey: string := "theme"

  /**
   * `getInitialTheme`: a valid stored value wins; otherwise `dark` when
   * `matchMedia` exists and reports a dark preference; otherwise `light`.
   */
  function InitialTheme(saved: Option<string>, hasMatchMedia: bool, prefersDark: bool): Theme {
    if TruthyString(saved) && ParseTheme(saved.value).Some? then ParseTheme(saved.value).value
    else if hasMatchMedia && prefersDark then Dark
    else Light
  }

  /** A stored valid theme is returned whatever the system preference says. */
  lemma StoredThemeWins(t: Theme, hasMatchMedia: bool, prefersDark: bool)
    ensures InitialTheme(Some(ThemeId(t)), hasMatchMedia, prefersDark) == t
  {
  }

  /** A stored string outside the three names is ignored: the result is as if nothing were stored. */
  lemma InvalidStoredValueIgnored(s: string, hasMatchMedia: bool, prefersDark: bool)
    requires s != ThemeId(Light) && s != ThemeId(Dark) && s != ThemeId(HighContrast)
    ensures InitialTheme(Some(s), hasMatchMedia, prefersDark) == InitialTheme(None, hasMatchMedia, prefersDark)
    ensures InitialTheme(Some(s), hasMatchMedia, prefersDark) == (if hasMatchMedia && prefersDark then Dark else Light)
  {
  }

  /** The updater passed by `toggleTheme`: light to dark, dark to high contrast, high contrast to light. */
  function Next(t: Theme): (r: Theme)
    ensures r != t
  {
    if t == Light then Dark
    else if t == Dark then HighContrast
    else Light
  }

  /** Three toggles come back to the start, and one or two never do. */
  lemma CycleHasPeriodThree(t: Theme)
    ensures Next(Next(Next(t))) == t
    ensures Next(t) != t && Next(Next(t)) != t
    ensures {t, Next(t), Next(Next(t))} == {Light, Dark, HighContrast}
  {
  }

  /** The Portuguese name of a theme used in announcements and labels. */
  function ThemeName(t: Theme): string {
    if t == Light then "claro"
    else if t == Dark then "escuro"
    else "alto contraste"
  }

  /** The three names are distinct, so each one identifies its theme. */
  lemma ThemeNameInjective(a: Theme, b: Theme)
    ensures ThemeName(a) == ThemeName(b) ==> a == b
  {
  }

  function BodyClass(t: Theme): string {
    "theme-" + ThemeId(t)
  }

  /** Distinct themes put distinct classes on the body. */
  lemma BodyClassInjective(a: Theme, b: Theme)
    ensures BodyClass(a) == BodyClass(b) ==> a == b
  {
    if BodyClass(a) == BodyClass(b) {
      assert ThemeId(a) == BodyClass(a)[6..];
      assert ThemeId(b) == BodyClass(b)[6..];
      ThemeIdRoundTrip(a);
      ThemeIdRoundTrip(b);
    }
  }

  /** The class a theme puts on the body is `theme-high-contrast` exactly for high contrast. */
  lemma HighContrastBodyClass(t: Theme)
    ensures BodyClass(t) == "theme-high-contrast" <==> t == HighContrast
  {
    assert BodyClass(HighContrast) == "theme-high-contrast";
    BodyClassInjective(t, HighContrast);
  }

  function Announcement(t: Theme): string {
    "Tema alterado para " + ThemeName(t)
  }

  /** The provider: one theme cell plus the three places its effect writes to. */
  class ThemeProvider {
    var theme: Theme
    const storage: Storage
    const body: Body
    /** `document.getElementById('theme-announcement')`, `null` when absent. */
    const announcer: LiveRegion?

    /** The effect's outcome: storage, body class and announcement all reflect `theme`. */
    ghost predicate Synced()
      reads this, storage, body, announcer
    {
      StorageKey in storage.items && storage.items[StorageKey] == ThemeId(theme) &&
      body.classList == {BodyClass(theme)} &&
      (announcer != null ==> announcer.text == Announcement(theme))
    }

    /** Mounting: resolve the initial theme, then run the effect once for it. */
    constructor (storage: Storage, body: Body, announcer: LiveRegion?, hasMatchMedia: bool, prefersDark: bool)
      modifies storage, body, announcer
      ensures this.storage == storage && this.body == body && this.announcer == announcer
      ensures theme == InitialTheme(old(storage.GetItem(StorageKey)), hasMatchMedia, prefersDark)
      ensures storage.items == old(storage.items)[StorageKey := ThemeId(theme)]
      ensures body.fontSize == old(body.fontSize)
      ensures Synced()
    {
      this.storage := storage;
      this.body := body;
      this.announcer := announcer;
      theme := InitialTheme(storage.GetItem(StorageKey), hasMatchMedia, prefersDark);
      new;
      ApplyTheme();
    }

    /** The effect on `[theme]`: persist, overwrite the body class, announce if the region exists. */
    method ApplyTheme()
      modifies storage, body, announcer
      ensures storage.items == old(storage.items)[StorageKey := ThemeId(theme)]
      ensures body.classList == {BodyClass(theme)} && body.fontSize == old(body.fontSize)
      ensures announcer != null ==> announcer.text == Announcement(theme)
      ensures Synced()
    {
      storage.SetItem(StorageKey, ThemeId(theme));
      body.classList := {BodyClass(theme)};
      if announcer != null {
        announcer.text := Announcement(theme);
      }
    }

    /**
     * `setTheme(t)`. React skips the re-render, and with it the effect, when
     * the value is unchanged; otherwise the effect runs for the new value.
     */
    method SetTheme(t: Theme)
      modifies this`theme, storage, body, announcer
      ensures theme == t
      ensures t == old(theme) ==>
        storage.items == old(storage.items) && body.classList == old(body.classList) &&
        (announcer != null ==> announcer.text == old(announcer.text))
      ensures t != old(theme) ==>
        storage.items == old(storage.items)[StorageKey := ThemeId(t)] && Synced()
      ensures body.fontSize == old(body.fontSize)
    {
      if t != theme {
        theme := t;
        ApplyTheme();
      }
    }

    /** `toggleTheme()`: move to the successor theme, which always differs, so the effect runs. */
    method ToggleTheme()
      modifies this`theme, storage, body, announcer
      ensures theme == Next(old(theme))
      ensures storage.items == old(storage.items)[StorageKey := ThemeId(theme)]
      ensures body.fontSize == old(body.fontSize)
      ensures Synced()
    {
      theme := Next(theme);
      ApplyTheme();
    }
  }

  /** What the provider persisted is what the next session starts with, whatever the system says. */
  method PersistedThemeSurvivesReload(p: ThemeProvider, hasMatchMedia: bool, prefersDark: bool)
    returns (q: ThemeProvider)
    requires p.Synced()
    modifies p.storage, p.body, p.announcer
    ensures q.theme == old(p.theme)
  {
    StoredThemeWins(p.theme, hasMatchMedia, prefersDark);
    q := new ThemeProvider(p.storage, p.body, p.announcer, hasMatchMedia, prefersDark);
  }
}
