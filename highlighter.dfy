/** A second palette implementation, starting empty by default. */
module HighlighterGateway {
  import opened Wrappers
  import opened ColorEntity

  class Highlighter {
    var colorConfig: map<string, Colors>

    /** `Highlighter::default()`: an empty palette, so no keyword has a colour. */
    constructor Default()
      ensures colorConfig == map[]
      ensures forall k :: ColorText(k, Background) == None
    {
      colorConfig := map[];
    }

    /** `Highlighter::new`: the palette is the given map. */
    constructor New(colorConfig: map<string, Colors>)
      ensures this.colorConfig == colorConfig
    {
      this.colorConfig := colorConfig;
    }

    /** `color_text`: the colour of a keyword in the palette, none otherwise. */
    function ColorText(text: string, colorType: ColorType): (r: Option<Color>)
      reads this
      ensures r.Some? <==> text in colorConfig
      ensures r.Some? ==> r.value == colorConfig[text].background
    {
      if text in colorConfig then Some(colorConfig[text].Pick(colorType)) else None
    }

    /** `update_palette`: insert or overwrite one keyword only. */
    method UpdatePalette(text: string, colors: Colors)
      modifies this
      ensures colorConfig == old(colorConfig)[text := colors]
      ensures ColorText(text, Background) == Some(colors.background)
      ensures forall k :: k != text ==> ColorText(k, Background) == old(ColorText(k, Background))
    {
      colorConfig := colorConfig[text := colors];
    }
  }
}
