/** Per-row scan context (entities/metadata.rs) and text positions (entities/position.rs). */
module Metadata {
  import opened Coordinates

  /** The length of a row and the column of its first non-whitespace character. */
  datatype RowMetadata = RowMetadata(lineLen: nat, firstNonZeroPos: Column) {

    /** `RowMetadata::new(line_len, first_non_zero_pos)`. */
    static function New(lineLen: nat, firstNonZeroPos: Column): (m: RowMetadata)
      ensures m.lineLen == lineLen && m.firstNonZeroPos == firstNonZeroPos
    {
      RowMetadata(lineLen, firstNonZeroPos)
    }
  }

  /** A row and a column. */
  datatype Position = Position(row: Row, column: Column) {

    /** `Position::new(row, column)`. */
    static function New(row: Row, column: Column): (p: Position)
      ensures p.row == row && p.column == column
    {
      Position(row, column)
    }

    /** `Position::into_pair`: the row and column `new` rebuilds this position from. */
    function IntoPair(): (p: (Row, Column))
      ensures New(p.0, p.1) == this
    {
      (row, column)
    }
  }

  /** `Position::new` followed by `into_pair` gives back the row and the column. */
  lemma PositionRoundTrip(row: Row, column: Column, p: Position)
    ensures Position.New(row, column).IntoPair() == (row, column)
    ensures Position.New(p.IntoPair().0, p.IntoPair().1) == p
  {
  }
}

/** The one error kind of the core (entities/error.rs). */
module Errors {

  datatype Error = InvalidRegex(reason: string)
}
