/** The highlight controller: the palette behind the server, filled from the settings. */
module HighlightController {
  import opened Wrappers
  import opened Coordinates
  import opened ColorEntity
  import opened Metadata
  import opened FileMatches
  import opened Colorer
  import opened Config
  import opened ColorProviderGateway

  /** The colours a settings entry stands for. */
  function ToColors(uc: UserColors): (c: Colors)
    ensures c.background.IntoComponents() == (uc.background.r, uc.background.g, uc.background.b, uc.background.a)
  {
    Colors.New(Color.New(uc.background.r, uc.background.g, uc.background.b, uc.background.a))
  }

  /** The palette entries a settings map stands for. */
  function Converted(palette: map<string, UserColors>): (m: map<string, Colors>)
    ensures m.Keys == palette.Keys
    ensures forall k :: k in palette ==> m[k] == ToColors(palette[k])
  {
    map k | k in palette :: ToColors(palette[k])
  }

  /** The palette entries of the keys in `done`. */
  ghost function Part(palette: map<string, UserColors>, done: set<string>): map<string, Colors>
    requires done <= palette.Keys
  {
    map k | k in done :: ToColors(palette[k])
  }

  /** Storing one more key's colours extends the merged part by that key. */
  lemma MergeStep(base: map<string, Colors>, palette: map<string, UserColors>, done: set<string>, key: string)
    requires done <= palette.Keys && key in palette
    ensures (base + Part(palette, done))[key := ToColors(palette[key])] == base + Part(palette, done + {key})
  {
  }

  /** Once every key is done, the merged part is the whole converted palette. */
  lemma PartAll(palette: map<string, UserColors>)
    ensures Part(palette, palette.Keys) == Converted(palette)
  {
  }

  class Highlight {
    const inner: ColorProvider

    constructor New(v: ColorProvider)
      ensures inner == v
    {
      inner := v;
    }

    /** `colors`: the palette of the provider. */
    function Colors(): (m: map<string, Colors>)
      reads this, inner
      ensures m == inner.background
    {
      inner.BackgroundColors()
    }

    /** `highlight`: exactly the provider's answer. */
    function Highlight(text: string, colorType: ColorType): (r: Option<Color>)
      reads this, inner
      ensures r == inner.ColorText(text, colorType)
      ensures r.Some? <==> text in Colors()
    {
      inner.ColorText(text, colorType)
    }

    /** `color_intervals`: exactly the port's intervals. */
    method ColorIntervals(rowMatches: seq<Match>, rowMeta: RowMetadata) returns (ivs: seq<(Column, Column)>)
      requires CanColor(rowMatches, rowMeta)
      ensures ivs == Intervals(rowMatches, rowMeta)
    {
      ivs := Colorer.ColorIntervals(rowMatches, rowMeta);
    }

    /** `update_palette`: merge every settings entry into the palette, in
        whatever order the map yields them. Entries in `palette` win; the
        other keywords keep their colours. */
    method UpdatePalette(palette: map<string, UserColors>)
      modifies inner
      ensures Colors() == old(Colors()) + Converted(palette)
      ensures forall k :: k in palette ==> Highlight(k, Background) == Some(ToColors(palette[k]).background)
      ensures forall k :: k !in palette ==> Highlight(k, Background) == old(Highlight(k, Background))
    {
      MergeEntries(palette);
      PartAll(palette);
    }

    /** The loop of `update_palette`: one provider update per settings entry. */
    method MergeEntries(palette: map<string, UserColors>)
      modifies inner
      ensures inner.background == old(inner.background) + Part(palette, palette.Keys)
    {
      var remaining := palette.Keys;
      ghost var done: set<string> := {};
      while remaining != {}
        invariant remaining !! done && remaining + done == palette.Keys
        invariant inner.background == old(inner.background) + Part(palette, done)
        decreases |remaining|
      {
        var key :| key in remaining;
        MergeStep(old(inner.background), palette, done, key);
        inner.UpdatePalette(key, ToColors(palette[key]));
        remaining := remaining - {key};
        done := done + {key};
      }
      assert done == palette.Keys;
    }
  }
}
