/**
 * The colour-mode context: the mode starts from the stored `theme-mode`
 * (any non-empty stored text is taken as is), toggling maps "light" to
 * "dark" and everything else to "light", and every mode, the first one
 * included, is written back to storage.
 */
module Theme {
  import opened Wrappers
  import opened Browser

  const ThemeModeKey := "theme-mode"
  const Light := "light"
  const Dark := "dark"

  /** The lazy initial state: the stored value when it is non-empty, else "light". */
  function InitialMode(saved: Option<string>): (m: string)
    ensures m != ""
    ensures saved.Some? && saved.value != "" ==> m == saved.value
    ensures saved.None? || saved.value == "" ==> m == Light
  {
    if saved.Some? && saved.value != "" then saved.value else Light
  }

  /** `toggleTheme`'s updater. */
  function ToggleMode(m: string): (r: string)
    ensures r == Light || r == Dark
    ensures r == Dark <==> m == Light
    ensures r != m || (m != Light && m != Dark)
  {
    if m == Light then Dark else Light
  }

  /** Toggling twice from either real mode gives the mode back. */
  lemma ToggleTwice(m: string)
    requires m == Light || m == Dark
    ensures ToggleMode(ToggleMode(m)) == m
  {
  }

  /** A stored mode that is neither "light" nor "dark" is replaced by "light" on the first toggle. */
  lemma ToggleNormalises(m: string)
    requires m != Light && m != Dark
    ensures ToggleMode(m) == Light
  {
  }

  /** The primary, default background, paper and text colours of a palette. */
  datatype Palette = Palette(primary: string, background: string, paper: string, textPrimary: string, textSecondary: string)

  const LightPalette := Palette("#283C85", "#F8FAFC", "#FFFFFF", "#1E293B", "#64748B")
  const DarkPalette := Palette("#4F7FFA", "#0F172A", "#1E293B", "#F1F5F9", "#CBD5E1")

  /** Every mode other than "light" gets the dark colours. */
  function PaletteFor(mode: string): (p: Palette)
    ensures p == LightPalette <==> mode == Light
    ensures p == DarkPalette <==> mode != Light
  {
    if mode == Light then LightPalette else DarkPalette
  }

  /** The provider: its mode, always mirrored in storage. */
  class ThemeProvider {
    const win: Window
    var mode: string

    predicate Persisted()
      reads this, win
    {
      ThemeModeKey in win.storage && win.storage[ThemeModeKey] == mode
    }

    /** Mounting: read the stored mode, then the effect writes it back. */
    constructor (win: Window)
      modifies win
      ensures this.win == win
      ensures mode == InitialMode(old(win.GetItem(ThemeModeKey)))
      ensures win.storage == old(win.storage)[ThemeModeKey := mode]
      ensures win.log == old(win.log) + [SetItem(ThemeModeKey, mode)]
      ensures Persisted()
    {
      this.win := win;
      var saved := win.GetItem(ThemeModeKey);
      mode := InitialMode(saved);
      new;
      win.SetItem(ThemeModeKey, mode);
    }

    /** `toggleTheme`, followed by the effect that persists the new mode. */
    method ToggleTheme()
      modifies this, win
      ensures mode == ToggleMode(old(mode))
      ensures win.storage == old(win.storage)[ThemeModeKey := mode]
      ensures win.log == old(win.log) + [SetItem(ThemeModeKey, mode)]
      ensures Persisted()
    {
      mode := ToggleMode(mode);
      win.SetItem(ThemeModeKey, mode);
    }
  }
}
