/**
 * The user's settings: keyword colours with their fallbacks. JSON decoding
 * itself happens in a library; the model starts from what it decoded.
 */
module Config {
  import opened Wrappers
  import opened ColorEntity

  /** A colour as the settings give it, one byte per channel. */
  datatype HexColor = HexColor(r: uint8, g: uint8, b: uint8, a: uint8)

  /** The colours configured for one keyword. */
  datatype UserColors = UserColors(background: HexColor)

  /** One decoded keyword entry, whose `background` field may be missing. */
  datatype RawUserColors = RawUserColors(background: Option<HexColor>)

  /** The settings: the colours of every highlighted keyword. */
  datatype Config = Config(highlights: map<string, UserColors>)

  /** `UserColors::default_background`: opaque gray. */
  function DefaultBackground(): (c: HexColor)
    ensures c.r == 134 && c.g == 134 && c.b == 134 && c.a == 255
  {
    HexColor(134, 134, 134, 255)
  }

  /** The field-level default of the decoder: a missing background is the default one. */
  function ResolveUserColors(raw: RawUserColors): (uc: UserColors)
    ensures raw.background.Some? ==> uc.background == raw.background.value
    ensures raw.background.None? ==> uc.background == DefaultBackground()
  {
    match raw.background
    case Some(bg) => UserColors(bg)
    case None => UserColors(DefaultBackground())
  }

  /** `Config::default_highlights`: only `TODO`, in the default gray. */
  function DefaultHighlights(): (m: map<string, UserColors>)
    ensures m.Keys == {"TODO"}
    ensures m["TODO"].background == DefaultBackground()
  {
    map["TODO" := UserColors(DefaultBackground())]
  }

  /** `Config::default()`. */
  function DefaultConfig(): (c: Config)
    ensures c.highlights.Keys == {"TODO"}
  {
    Config(DefaultHighlights())
  }

  /** `desierialize_highlights`: a non-empty decoded map is kept, an empty one
      becomes the default highlights. */
  function DeserializeHighlights(decoded: map<string, RawUserColors>): (m: map<string, UserColors>)
    ensures decoded != map[] ==> m.Keys == decoded.Keys
    ensures decoded != map[] ==> forall k :: k in decoded ==> m[k] == ResolveUserColors(decoded[k])
    ensures decoded == map[] ==> m == DefaultHighlights()
    ensures m != map[]
  {
    if decoded != map[] then map k | k in decoded :: ResolveUserColors(decoded[k])
    else DefaultHighlights()
  }

  /** `Config::parse_json`: `decoded` is `None` when the value does not decode
      as a configuration (`null`, no `highlights` field, a malformed colour);
      that yields the default configuration. */
  function ParseJson(decoded: Option<map<string, RawUserColors>>): (c: Config)
    ensures decoded.None? ==> c == DefaultConfig()
    ensures decoded.Some? && decoded.value != map[] ==> c.highlights.Keys == decoded.value.Keys
    ensures decoded.Some? && decoded.value == map[] ==> c == DefaultConfig()
    ensures c.highlights != map[]
  {
    match decoded
    case None => DefaultConfig()
    case Some(m) => Config(DeserializeHighlights(m))
  }

  /** Whatever the input, the parsed configuration highlights at least one keyword. */
  lemma ParseJsonNeverEmpty(decoded: Option<map<string, RawUserColors>>)
    ensures |ParseJson(decoded).highlights| >= 1
  {
    var m := ParseJson(decoded).highlights;
    var k :| k in m;
    assert k in m.Keys;
  }

  /** `null` and `{}` both fail to decode and give one highlight. */
  lemma ParseNullConfig()
    ensures |ParseJson(None).highlights| == 1
  {
    assert ParseJson(None).highlights.Keys == {"TODO"};
  }

  /** `{"highlights": {}}` gives one highlight, `TODO`. */
  lemma ParseEmptyConfig()
    ensures |ParseJson(Some(map[])).highlights| == 1
    ensures "TODO" in ParseJson(Some(map[])).highlights
  {
    assert ParseJson(Some(map[])).highlights.Keys == {"TODO"};
  }

  /** `{"highlights": {"TODO": {}}}` gives `TODO` the default background. */
  lemma ParseKeywordWithoutBackground()
    ensures var c := ParseJson(Some(map["TODO" := RawUserColors(None)]));
      "TODO" in c.highlights && c.highlights["TODO"].background == DefaultBackground()
  {
  }

  /** A decoded non-empty map keeps its keywords and the backgrounds it gives. */
  lemma ParseKeepsGivenColours(decoded: map<string, RawUserColors>, k: string, bg: HexColor)
    requires k in decoded && decoded[k].background == Some(bg)
    ensures var c := ParseJson(Some(decoded));
      k in c.highlights && c.highlights[k].background == bg
  {
  }
}
