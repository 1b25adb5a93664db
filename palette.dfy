/** The two colour palettes of the panel (`update_colors`). */
module Palette {

  /** A colour as Tk reads `#rrggbb`: its red, green and blue components. */
  datatype Color = Rgb(r: int, g: int, b: int)

  /** Background, button, foreground (text) and drag-handle colours. */
  datatype Colors = Colors(bg: Color, btn: Color, fg: Color, handle: Color)

  /** "#ffffff", "#f0f0f0", "#000000", "#d0d0d0". */
  const Light := Colors(Rgb(0xff, 0xff, 0xff), Rgb(0xf0, 0xf0, 0xf0), Rgb(0x00, 0x00, 0x00), Rgb(0xd0, 0xd0, 0xd0))
  /** "#333333", "#555555", "#ffffff", "#444444". */
  const Dark := Colors(Rgb(0x33, 0x33, 0x33), Rgb(0x55, 0x55, 0x55), Rgb(0xff, 0xff, 0xff), Rgb(0x44, 0x44, 0x44))

  /** Only the exact theme name "light" selects the light palette; every other
      value, "dark" or not, selects the dark one. Text is always readable:
      foreground and handle differ from the background. */
  function ColorsFor(theme: string): (c: Colors)
    ensures c == Light <==> theme == "light"
    ensures c == Dark <==> theme != "light"
    ensures c.fg != c.bg && c.handle != c.bg
  {
    if theme == "light" then Light else Dark
  }
}
