/** The palette used by the server: keyword to colours. */
module ColorProviderGateway {
  import opened Wrappers
  import opened ColorEntity

  class ColorProvider {
    var background: map<string, Colors>

    /** `ColorProvider::new`: the palette is the given map. */
    constructor New(colorConfig: map<string, Colors>)
      ensures background == colorConfig
    {
      background := colorConfig;
    }

    /** `background_colors`: the current palette. */
    function BackgroundColors(): (m: map<string, Colors>)
      reads this
      ensures m == background
    {
      background
    }

    /** `color_text`: the colour of the requested type for a keyword in the palette, none otherwise. */
    function ColorText(text: string, colorType: ColorType): (r: Option<Color>)
      reads this
      ensures r.Some? <==> text in background
      ensures r.Some? ==> r.value == background[text].background
    {
      if text in background then Some(background[text].Pick(colorType)) else None
    }

    /** `update_palette`: insert or overwrite one keyword, leaving the others alone. */
    method UpdatePalette(text: string, colors: Colors)
      modifies this
      ensures background == old(background)[text := colors]
      ensures ColorText(text, Background) == Some(colors.background)
      ensures forall k :: k != text ==> ColorText(k, Background) == old(ColorText(k, Background))
    {
      background := background[text := colors];
    }
  }
}
