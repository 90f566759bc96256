/**
 * The design system's simplified provider (`design-system/ThemeProvider.tsx`):
 * a fixed token object, a theme-mode cell and the `useTheme` hook that
 * refuses to run outside a provider.
 */
module DesignTheme {
  import opened Wrappers
  import ThemeContext

  /** `ThemeMode` has the same three members as the site theme. */
  type ThemeMode = ThemeContext.Theme

  datatype Colors = Colors(primary500: string, neutral50: string, neutral900: string)
  datatype DesignTokens = DesignTokens(colors: Colors)

  /** `defaultTheme`: the only token object the provider ever hands out. */
  const DefaultTheme: DesignTokens := DesignTokens(Colors("#3B5BCC", "#FFFFFF", "#000000"))

  /** The value a consumer receives (the setter is the provider's `SetThemeMode`). */
  datatype ContextValue = ContextValue(theme: DesignTokens, themeMode: ThemeMode)

  const OutsideProviderMessage: string := "useTheme must be used within a ThemeProvider"

  /** `useTheme`: the nearest provider's value, or the error thrown when there is none. */
  function UseTheme(context: Option<ContextValue>): (r: Result<ContextValue, string>)
    ensures r.Err? <==> context.None?
    ensures r.Err? ==> r.error == OutsideProviderMessage
    ensures r.Ok? ==> r.value == context.value
  {
    match context
    case None => Err(OutsideProviderMessage)
    case Some(c) => Ok(c)
  }

  class Provider {
    var themeMode: ThemeMode

    /** `initialThemeMode` defaults to `light` when the prop is omitted. */
    constructor (initialThemeMode: Option<ThemeMode>)
      ensures themeMode == initialThemeMode.GetOr(ThemeContext.Light)
      ensures initialThemeMode.Some? ==> themeMode == initialThemeMode.value
    {
      themeMode := initialThemeMode.GetOr(ThemeContext.Light);
    }

    /** What the provider puts in context: the fixed tokens and the current mode. */
    function Value(): (r: ContextValue)
      reads this
      ensures r.theme == DefaultTheme && r.themeMode == themeMode
    {
      ContextValue(DefaultTheme, themeMode)
    }

    method SetThemeMode(mode: ThemeMode)
      modifies this
      ensures themeMode == mode
    {
      themeMode := mode;
    }
  }
}
