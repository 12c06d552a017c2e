/** The light/dark theme preference of the page. */
module Theme {

  const Light: string := "light"
  const Dark: string := "dark"

  /** The colour set the page renders with: 'light' gives the light one,
      any other stored value the dark one. */
  datatype Palette = LightPalette | DarkPalette

  function PaletteOf(theme: string): (p: Palette)
    ensures p == LightPalette <==> theme == Light
  {
    if theme == Light then LightPalette else DarkPalette
  }

  /** The theme after one press of the toggle: always one of the two names,
      'dark' exactly when it was 'light'. */
  function Toggled(theme: string): (r: string)
    ensures r == Light || r == Dark
    ensures r == Dark <==> theme == Light
  {
    if theme == Light then Dark else Light
  }

  /** Every press flips the rendered palette, whatever value was restored. */
  lemma ToggleFlipsPalette(theme: string)
    ensures PaletteOf(Toggled(theme)) != PaletteOf(theme)
  {
  }

  /** Two presses give back the theme exactly when it was one of the two names. */
  lemma ToggleTwice(theme: string)
    ensures Toggled(Toggled(theme)) == theme <==> theme == Light || theme == Dark
  {
  }
}
