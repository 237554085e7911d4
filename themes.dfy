/**
 * Theme state of the widget: the partial-theme merge done by `setTheme`, the
 * system colour-scheme probe and the light/dark colour selection of
 * `getCurrentThemeColors`.
 */
module Themes {

  /** A `HeapchatTheme`: the colour fields that are set, by field name. */
  type Theme = map<string, string>

  datatype ThemeMode = Light | Dark | System

  /** The host's preferred colour scheme, as `getSystemTheme` reports it. */
  datatype Scheme = LightScheme | DarkScheme

  /** The four colours the launcher and close button are painted with. */
  datatype Colors = Colors(primary: string, primaryText: string, secondary: string, secondaryText: string)

  /** The fields `getCurrentThemeColors` reads with a non-null assertion. */
  const ColorKeys: set<string> := {
    "primaryColor", "primaryTextColor", "secondaryColor", "secondaryTextColor",
    "primaryColorLight", "primaryTextColorLight", "secondaryColorLight", "secondaryTextColorLight"
  }

  /** Every field the colour selection reads is set. */
  predicate HasColorFields(t: Theme) {
    ColorKeys <= t.Keys
  }

  /** The theme a fresh widget starts with. */
  const DefaultTheme: Theme := map[
    "primaryColor" := "#2563eb",
    "primaryTextColor" := "#ffffff",
    "secondaryColor" := "#27272a",
    "secondaryTextColor" := "#666666",
    "primaryColorLight" := "#2563eb",
    "primaryTextColorLight" := "#ffffff",
    "secondaryColorLight" := "#27272a",
    "secondaryTextColorLight" := "#666666"
  ]

  lemma DefaultThemeHasColors()
    ensures HasColorFields(DefaultTheme)
  {
  }

  /** `{...current, ...update}`: the fields in `update` win, every other field is kept. */
  function MergeTheme(current: Theme, update: Theme): (r: Theme)
    ensures r.Keys == current.Keys + update.Keys
    ensures forall k :: k in update ==> r[k] == update[k]
    ensures forall k :: k in current && k !in update ==> r[k] == current[k]
  {
    current + update
  }

  /** Two successive merges amount to one merge with the merge of both updates. */
  lemma MergeTwice(t: Theme, a: Theme, b: Theme)
    ensures MergeTheme(MergeTheme(t, a), b) == MergeTheme(t, MergeTheme(a, b))
  {
  }

  /** Applying the same update twice is the same as applying it once. */
  lemma MergeIdempotent(t: Theme, a: Theme)
    ensures MergeTheme(MergeTheme(t, a), a) == MergeTheme(t, a)
  {
  }

  /**
   * `getSystemTheme`: light outside a browser, otherwise the answer of the
   * `prefers-color-scheme: dark` media query, passed in as `prefersDark`.
   */
  function SystemScheme(isBrowser: bool, prefersDark: bool): (s: Scheme)
    ensures s == DarkScheme <==> isBrowser && prefersDark
  {
    if !isBrowser then LightScheme
    else if prefersDark then DarkScheme
    else LightScheme
  }

  /** Whether the dark-mode fields apply. */
  predicate UsesDark(mode: ThemeMode, system: Scheme) {
    mode == Dark || (mode == System && system == DarkScheme)
  }

  function DarkColors(t: Theme): Colors
    requires HasColorFields(t)
  {
    Colors(t["primaryColor"], t["primaryTextColor"], t["secondaryColor"], t["secondaryTextColor"])
  }

  function LightColors(t: Theme): Colors
    requires HasColorFields(t)
  {
    Colors(t["primaryColorLight"], t["primaryTextColorLight"], t["secondaryColorLight"], t["secondaryTextColorLight"])
  }

  /**
   * `getCurrentThemeColors`: all four colours come from the same side, the
   * dark fields exactly when the mode is dark or the mode follows a dark
   * system scheme.
   */
  function SelectColors(t: Theme, mode: ThemeMode, system: Scheme): (c: Colors)
    requires HasColorFields(t)
    ensures UsesDark(mode, system) ==> c == DarkColors(t)
    ensures !UsesDark(mode, system) ==> c == LightColors(t)
  {
    var isDark := UsesDark(mode, system);
    Colors(
      if isDark then t["primaryColor"] else t["primaryColorLight"],
      if isDark then t["primaryTextColor"] else t["primaryTextColorLight"],
      if isDark then t["secondaryColor"] else t["secondaryColorLight"],
      if isDark then t["secondaryTextColor"] else t["secondaryTextColorLight"])
  }

  /** An explicit light or dark mode does not depend on the system scheme. */
  lemma ExplicitModeIgnoresSystem(t: Theme, mode: ThemeMode, s1: Scheme, s2: Scheme)
    requires HasColorFields(t)
    requires mode != System
    ensures SelectColors(t, mode, s1) == SelectColors(t, mode, s2)
  {
  }

  /** System mode gives the colours of the explicit mode matching the scheme. */
  lemma SystemModeFollowsScheme(t: Theme, s: Scheme)
    requires HasColorFields(t)
    ensures SelectColors(t, System, s) == SelectColors(t, if s == DarkScheme then Dark else Light, s)
  {
  }

  /** Merging never loses a colour field, so the non-null reads stay safe. */
  lemma MergeKeepsColorKeys(t: Theme, update: Theme)
    requires HasColorFields(t)
    ensures HasColorFields(MergeTheme(t, update))
  {
  }
}
