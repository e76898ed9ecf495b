/**
 * The colour-interval calculator, the default method of the `Colorer` port
 * (use_cases/ports/colorer.rs).
 */
module Colorer {
  import opened Coordinates
  import opened Metadata
  import opened FileMatches

  /** What `color_intervals` demands of its caller: a match to take the last
      interval from (`expect` panics otherwise) and a line length from which
      one can be subtracted (`usize` underflow otherwise). */
  predicate CanColor(rowMatches: seq<Match>, rowMeta: RowMetadata) {
    |rowMatches| > 0 && rowMeta.lineLen >= 1
  }

  /** The columns of consecutive matches, paired: the `zip` with `skip(1)`. */
  function Pairs(rowMatches: seq<Match>): (ps: seq<(Column, Column)>)
    ensures |ps| == if |rowMatches| == 0 then 0 else |rowMatches| - 1
    ensures forall i {:trigger ps[i]} :: 0 <= i < |ps| ==> ps[i] == (rowMatches[i].column, rowMatches[i + 1].column)
  {
    if |rowMatches| < 2 then [] else [(rowMatches[0].column, rowMatches[1].column)] + Pairs(rowMatches[1..])
  }

  /** The intervals of a row, built as the source builds them: the pairs, then
      the last match up to `line_len - 1`, then the first start overwritten. */
  function Intervals(rowMatches: seq<Match>, rowMeta: RowMetadata): (ivs: seq<(Column, Column)>)
    requires CanColor(rowMatches, rowMeta)
    ensures |ivs| == |rowMatches|
    ensures ivs[0].0 == rowMeta.firstNonZeroPos
    ensures forall i :: 1 <= i < |ivs| ==> ivs[i].0 == rowMatches[i].column
    ensures forall i :: 0 <= i < |ivs| - 1 ==> ivs[i].1 == rowMatches[i + 1].column
    ensures ivs[|ivs| - 1].1 == Column(rowMeta.lineLen - 1)
    ensures forall i :: 0 <= i < |ivs| - 1 ==> ivs[i].1 == ivs[i + 1].0
  {
    var last := rowMatches[|rowMatches| - 1];
    var pushed := Pairs(rowMatches) + [(last.column, Column(rowMeta.lineLen - 1))];
    assert forall i :: 0 <= i < |pushed| ==> pushed[i].0 == rowMatches[i].column;
    pushed[0 := (rowMeta.firstNonZeroPos, pushed[0].1)]
  }

  /** `Colorer::color_intervals`, step by step as the source runs it. */
  method ColorIntervals(rowMatches: seq<Match>, rowMeta: RowMetadata) returns (colorIntervals: seq<(Column, Column)>)
    requires CanColor(rowMatches, rowMeta)
    ensures colorIntervals == Intervals(rowMatches, rowMeta)
  {
    colorIntervals := [];
    var i := 0;
    while i + 1 < |rowMatches|
      invariant 0 <= i <= |rowMatches| - 1
      invariant |colorIntervals| == i
      invariant forall j :: 0 <= j < i ==> colorIntervals[j] == (rowMatches[j].column, rowMatches[j + 1].column)
    {
      colorIntervals := colorIntervals + [(rowMatches[i].column, rowMatches[i + 1].column)];
      i := i + 1;
    }
    assert forall j :: 0 <= j < i ==> colorIntervals[j] == Pairs(rowMatches)[j];
    assert colorIntervals == Pairs(rowMatches);
    var lastMatch := rowMatches[|rowMatches| - 1];
    var lineEnd := Column(rowMeta.lineLen - 1);
    colorIntervals := colorIntervals + [(lastMatch.column, lineEnd)];
    colorIntervals := colorIntervals[0 := (rowMeta.firstNonZeroPos, colorIntervals[0].1)];
  }

  /** A single match spans the whole row from its first non-whitespace column. */
  lemma SingleMatch(m: Match, rowMeta: RowMetadata)
    requires rowMeta.lineLen >= 1
    ensures Intervals([m], rowMeta) == [(rowMeta.firstNonZeroPos, Column(rowMeta.lineLen - 1))]
  {
  }

  /** Three matches at columns 3, 18 and 34 of an 80-column row starting at column 0. */
  lemma ThreeMatches(k0: string, k1: string, k2: string)
    ensures Intervals([Match(Column(3), k0), Match(Column(18), k1), Match(Column(34), k2)],
                      RowMetadata(80, Column(0)))
         == [(Column(0), Column(18)), (Column(18), Column(34)), (Column(34), Column(79))]
  {
  }

  /** When the columns are non-decreasing, the first match starts at or after the
      first non-whitespace column and the last one before the line end, every
      interval is non-empty and they are ordered. */
  lemma IntervalsOrdered(rowMatches: seq<Match>, rowMeta: RowMetadata)
    requires CanColor(rowMatches, rowMeta)
    requires forall i :: 0 <= i < |rowMatches| - 1 ==> rowMatches[i].column.value <= rowMatches[i + 1].column.value
    requires rowMeta.firstNonZeroPos.value <= rowMatches[0].column.value
    requires rowMatches[|rowMatches| - 1].column.value <= rowMeta.lineLen - 1
    ensures var ivs := Intervals(rowMatches, rowMeta);
      forall i :: 0 <= i < |ivs| ==> ivs[i].0.value <= ivs[i].1.value
  {
    var ivs := Intervals(rowMatches, rowMeta);
    forall i | 0 <= i < |ivs|
      ensures ivs[i].0.value <= ivs[i].1.value
    {
      if i == |ivs| - 1 {
        if i > 0 {
          assert ivs[i].0 == rowMatches[i].column;
        }
      } else {
        assert ivs[i].1 == rowMatches[i + 1].column;
        if i > 0 {
          assert ivs[i].0 == rowMatches[i].column;
        }
      }
    }
  }
}
