/** Colour value types (entities/color.rs). */
module ColorEntity {

  /** A Rust `u8` channel. */
  newtype uint8 = x: int | 0 <= x < 0x100

  /** Selector over the roles of a palette entry; the server knows one role. */
  datatype ColorType = Background

  /** An RGBA colour with one byte per channel. */
  datatype Color = Color(r: uint8, g: uint8, b: uint8, a: uint8) {

    /** `Color::new(r, g, b, a)`. */
    static function New(r: uint8, g: uint8, b: uint8, a: uint8): (c: Color)
      ensures c.r == r && c.g == g && c.b == b && c.a == a
    {
      Color(r, g, b, a)
    }

    /** `Color::into_components`: the four channels in r, g, b, a order. */
    function IntoComponents(): (t: (uint8, uint8, uint8, uint8))
      ensures New(t.0, t.1, t.2, t.3) == this
    {
      (r, g, b, a)
    }
  }

  /** The colours configured for one keyword. */
  datatype Colors = Colors(background: Color) {

    /** `Colors::new(background)`. */
    static function New(background: Color): (c: Colors)
      ensures c.background == background
    {
      Colors(background)
    }

    /** The colour of the requested role (the `match color_type` of both palettes). */
    function Pick(colorType: ColorType): (c: Color)
      ensures colorType == Background ==> c == background
    {
      match colorType
      case Background => background
    }
  }

  /** `Color::new` followed by `into_components` gives back the four channels, and the converse. */
  lemma ColorRoundTrip(r: uint8, g: uint8, b: uint8, a: uint8, c: Color)
    ensures Color.New(r, g, b, a).IntoComponents() == (r, g, b, a)
    ensures var t := c.IntoComponents(); Color.New(t.0, t.1, t.2, t.3) == c
  {
  }

  /** Every channel of every colour lies in 0..255. */
  lemma ChannelsAreBytes(c: Color)
    ensures 0 <= c.r as int <= 255 && 0 <= c.g as int <= 255
    ensures 0 <= c.b as int <= 255 && 0 <= c.a as int <= 255
  {
  }

  /** `ColorType` has exactly one value. */
  lemma OneColorType(t: ColorType)
    ensures t == Background
  {
  }
}
