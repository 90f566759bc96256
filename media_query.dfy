/**
 * `design-system/hooks/useMediaQuery.ts`: breakpoint keys resolved to
 * `min-width` queries, a `matches` cell that follows the media-query
 * list's change events, and the three preference hooks built on it.
 */
module MediaQuery {
  import opened Wrappers

  /** `tokens/breakpoints.ts`: the named minimum widths. */
  const Breakpoints: map<string, string> := map[
    "xs" := "320px", "sm" := "640px", "md" := "768px",
    "lg" := "1024px", "xl" := "1280px", "2xl" := "1536px"]

  /**
   * A breakpoint key becomes `(min-width: <width>)`; anything else is taken
   * as a query already. Every width is a non-empty string, so the truthiness
   * test is the same as key membership.
   */
  function ResolveQuery(query: string): (r: string)
    ensures query in Breakpoints ==> r == "(min-width: " + Breakpoints[query] + ")"
    ensures query !in Breakpoints ==> r == query
  {
    if query in Breakpoints && Breakpoints[query] != "" then "(min-width: " + Breakpoints[query] + ")"
    else query
  }

  /** A resolved query is never a key again, so resolving twice changes nothing. */
  lemma ResolveIdempotent(query: string)
    ensures ResolveQuery(ResolveQuery(query)) == ResolveQuery(query)
  {
    if query in Breakpoints {
      var r := ResolveQuery(query);
      assert |r| > 3;
      assert r !in Breakpoints;
    }
  }

  /** `matchMedia` is not modelled; what it reports for a query is a parameter. */
  type Environment = string -> bool

  class MediaQueryHook {
    /** The resolved query the effect is subscribed to (the effect's dependency). */
    var mediaQuery: string
    var matches: bool
    /** Whether the effect's change listener is attached. */
    var listening: bool
    /** Whether `window` exists (false during server-side rendering). */
    const inBrowser: bool

    /**
     * Mount: the initial state reads `matchMedia` when a window exists and is
     * `false` otherwise; the effect then attaches the listener, again only in a browser.
     */
    constructor (query: string, hasWindow: bool, env: Environment)
      ensures mediaQuery == ResolveQuery(query) && inBrowser == hasWindow
      ensures matches == (hasWindow && env(ResolveQuery(query)))
      ensures listening == hasWindow
    {
      mediaQuery := ResolveQuery(query);
      matches := hasWindow && env(ResolveQuery(query));
      listening := hasWindow;
      inBrowser := hasWindow;
    }

    /** The `change` listener: copy the event's `matches` while attached. */
    method OnChange(eventMatches: bool)
      modifies this`matches
      ensures matches == if listening then eventMatches else old(matches)
    {
      if listening {
        matches := eventMatches;
      }
    }

    /**
     * A re-render with a new `query` prop. The state initialiser runs only on
     * mount, so `matches` is not re-read: it keeps the previous query's answer
     * until the next `change` event. When the resolved query differs, the
     * effect's cleanup detaches the old listener and the effect attaches one to
     * the new query (in a browser); an equal query leaves the effect alone.
     */
    method SetQuery(query: string)
      modifies this`mediaQuery, this`listening
      ensures mediaQuery == ResolveQuery(query)
      ensures listening == if ResolveQuery(query) == old(mediaQuery) then old(listening) else inBrowser
    {
      var resolved := ResolveQuery(query);
      if resolved != mediaQuery {
        listening := false;
        mediaQuery := resolved;
        listening := inBrowser;
      }
    }

    /** The effect's cleanup on unmount: detach the listener; later events change nothing. */
    method Cleanup()
      modifies this`listening
      ensures !listening
    {
      listening := false;
    }
  }

  /**
   * After the query prop changes, the hook still reports the old query's
   * answer, although it is now subscribed to the new query.
   */
  method MatchesLagBehindNewQuery(q1: string, q2: string, env: Environment) returns (h: MediaQueryHook)
    ensures fresh(h) && h.mediaQuery == ResolveQuery(q2) && h.listening
    ensures h.matches == env(ResolveQuery(q1))
  {
    h := new MediaQueryHook(q1, true, env);
    h.SetQuery(q2);
  }

  const ReducedMotionQuery: string := "(prefers-reduced-motion: reduce)"
  const DarkSchemeQuery: string := "(prefers-color-scheme: dark)"
  const LightSchemeQuery: string := "(prefers-color-scheme: light)"
  const ForcedColorsQuery: string := "(forced-colors: active)"

  /** The fixed preference queries are not breakpoint keys and reach `matchMedia` unchanged. */
  lemma PreferenceQueriesPassThrough()
    ensures ResolveQuery(ReducedMotionQuery) == ReducedMotionQuery
    ensures ResolveQuery(DarkSchemeQuery) == DarkSchemeQuery
    ensures ResolveQuery(LightSchemeQuery) == LightSchemeQuery
    ensures ResolveQuery(ForcedColorsQuery) == ForcedColorsQuery
  {
  }

  datatype ColorScheme = SchemeDark | SchemeLight | NoPreference

  /** `usePrefersColorScheme`: dark wins over light, and neither gives `no-preference`. */
  function PrefersColorScheme(prefersDark: bool, prefersLight: bool): (r: ColorScheme)
    ensures r == SchemeDark <==> prefersDark
    ensures r == SchemeLight <==> !prefersDark && prefersLight
    ensures r == NoPreference <==> !prefersDark && !prefersLight
  {
    if prefersDark then SchemeDark
    else if prefersLight then SchemeLight
    else NoPreference
  }

  /** The colour-scheme hook on a window: each query as the environment reports it. */
  function ColorSchemeIn(env: Environment): (r: ColorScheme)
    ensures r == SchemeDark <==> env(DarkSchemeQuery)
    ensures r == PrefersColorScheme(env(DarkSchemeQuery), env(LightSchemeQuery))
  {
    PreferenceQueriesPassThrough();
    PrefersColorScheme(env(ResolveQuery(DarkSchemeQuery)), env(ResolveQuery(LightSchemeQuery)))
  }
}
