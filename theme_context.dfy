/**
 * contexts/ThemeContext.tsx: the two palettes and how the provider picks one.
 * The provider's only state cell, `themeMode`, is replaced wholesale by its
 * setter, so the model takes it as a parameter; so is the device scheme that
 * `useColorScheme()` reports.
 */
module ThemeContext {

  datatype ThemeMode = Light | Dark | System

  /** What `useColorScheme()` reports; `NoPreference` stands for `null`/`undefined`. */
  datatype ColorScheme = LightScheme | DarkScheme | NoPreference

  datatype Palette = Palette(
    primary: string,
    primaryLight: string,
    primaryDark: string,
    secondary: string,
    secondaryLight: string,
    secondaryDark: string,
    accent: string,
    accentLight: string,
    accentDark: string,
    success: string,
    warning: string,
    error: string,
    background: string,
    surface: string,
    textPrimary: string,
    textSecondary: string,
    divider: string,
    cardBg: string,
    statusBarStyle: string)

  const LightTheme := Palette(
    "#4CAF50", "#81C784", "#388E3C",
    "#FF9800", "#FFB74D", "#F57C00",
    "#2196F3", "#64B5F6", "#1976D2",
    "#4CAF50", "#FFC107", "#F44336",
    "#FFFFFF", "#F5F5F5", "#212121", "#757575", "#EEEEEE", "#FFFFFF",
    "dark")

  const DarkTheme := Palette(
    "#81C784", "#A5D6A7", "#4CAF50",
    "#FFB74D", "#FFCC80", "#FF9800",
    "#64B5F6", "#90CAF9", "#2196F3",
    "#66BB6A", "#FFD54F", "#E57373",
    "#121212", "#1E1E1E", "#FFFFFF", "#B0B0B0", "#2D2D2D", "#1E1E1E",
    "light")

  /** The mode the provider starts in. */
  const InitialMode := System

  /** The provider's `isDark`. */
  function IsDark(mode: ThemeMode, scheme: ColorScheme): (r: bool)
    ensures mode == Dark ==> r
    ensures mode == Light ==> !r
    ensures mode == System ==> (r <==> scheme == DarkScheme)
  {
    mode == Dark || (mode == System && scheme == DarkScheme)
  }

  /** The provider's `theme`: the dark palette exactly when dark. */
  function ActiveTheme(mode: ThemeMode, scheme: ColorScheme): (r: Palette)
    ensures r == DarkTheme <==> IsDark(mode, scheme)
    ensures r == LightTheme <==> !IsDark(mode, scheme)
    ensures r.statusBarStyle == (if IsDark(mode, scheme) then "light" else "dark")
  {
    if IsDark(mode, scheme) then DarkTheme else LightTheme
  }

  /** The value the context carries (its setter is left out). */
  datatype ThemeContextValue = ThemeContextValue(theme: Palette, themeMode: ThemeMode, isDark: bool)

  /** The context's default value, seen outside any provider. */
  const DefaultContext := ThemeContextValue(LightTheme, System, false)

  /** The value a provider in `mode` on a device with `scheme` supplies. */
  function ProviderValue(mode: ThemeMode, scheme: ColorScheme): (r: ThemeContextValue)
    ensures r.themeMode == mode
    ensures r.isDark == IsDark(mode, scheme)
    ensures r.theme == ActiveTheme(mode, scheme)
  {
    ThemeContextValue(ActiveTheme(mode, scheme), mode, IsDark(mode, scheme))
  }

  /** A freshly mounted provider agrees with the default context exactly
      when the device is not in dark mode. */
  lemma DefaultMatchesFreshProvider(scheme: ColorScheme)
    ensures ProviderValue(InitialMode, scheme) == DefaultContext <==> scheme != DarkScheme
  {
  }

  /** The supplied value is coherent: its palette is dark iff its flag says so. */
  lemma ProviderValueCoherent(mode: ThemeMode, scheme: ColorScheme)
    ensures var v := ProviderValue(mode, scheme); v.theme == (if v.isDark then DarkTheme else LightTheme)
  {
  }
}
