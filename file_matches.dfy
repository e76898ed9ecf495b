/** Keyword matches of one file (entities/file_matches.rs). */
module FileMatches {
  import opened Wrappers
  import opened Coordinates
  import opened Metadata

  /** One keyword occurrence: where it starts and the text that matched. */
  datatype Match = Match(column: Column, keyword: string) {

    /** `Match::new(column, matched_patch)`: the matched text is kept verbatim. */
    static function New(column: Column, matchedPatch: string): (m: Match)
      ensures m.column == column && m.keyword == matchedPatch
    {
      Match(column, matchedPatch)
    }
  }

  /** What the index keeps for one row: its metadata and its matches in discovery order. */
  datatype RowData = RowData(meta: RowMetadata, matches: seq<Match>)

  /** The matches of one file, by row. */
  datatype FileState = FileState(rows: map<Row, RowData>) {

    /** `FileState::default()`: no rows at all. */
    static function Default(): (f: FileState)
      ensures f.Len() == 0
    {
      FileState(map[])
    }

    /** `FileState::try_new`: refuses to build a file state without rows. */
    static function TryNew(data: map<Row, RowData>): (r: Option<FileState>)
      ensures r.None? <==> data == map[]
      ensures r.Some? ==> r.value.rows == data && r.value.Len() > 0
    {
      if |data| != 0 then Some(FileState(data)) else None
    }

    /** `FileState::replace`: the row now maps to the new metadata and matches. */
    function Replace(row: Row, metadata: RowMetadata, newMatches: seq<Match>): (f: FileState)
      ensures row in f.rows && f.rows[row] == RowData(metadata, newMatches)
      ensures f.rows.Keys == rows.Keys + {row}
      ensures forall r :: r in rows && r != row ==> f.rows[r] == rows[r]
    {
      FileState(rows[row := RowData(metadata, newMatches)])
    }

    /** `FileState::len`: the number of rows. */
    function Len(): nat {
      |rows|
    }
  }

  /** A row as the scanner builds it: at least one match, a non-empty line,
      the first non-whitespace column and every match start within the line. */
  predicate WellFormedRow(d: RowData) {
    && |d.matches| > 0
    && d.meta.lineLen >= 1
    && d.meta.firstNonZeroPos.value <= d.meta.lineLen
    && forall i :: 0 <= i < |d.matches| ==> d.matches[i].column.value <= d.meta.lineLen
  }

  /** A file state as the scanner builds it: at least one row, every row well formed. */
  predicate WellFormed(f: FileState) {
    f.rows != map[] && forall r :: r in f.rows ==> WellFormedRow(f.rows[r])
  }

  /** `len` counts the rows: it is zero exactly for the file state without rows. */
  lemma LenCountsRows(f: FileState)
    ensures f.Len() == |f.rows.Keys|
    ensures f.Len() == 0 <==> f.rows == map[]
  {
    if f.rows != map[] {
      var r :| r in f.rows;
      assert r in f.rows.Keys;
    }
  }

  /** `replace` adds at most one row and never drops one. */
  lemma ReplaceLen(f: FileState, row: Row, metadata: RowMetadata, newMatches: seq<Match>)
    ensures var g := f.Replace(row, metadata, newMatches);
      g.Len() == if row in f.rows then f.Len() else f.Len() + 1
  {
    var g := f.Replace(row, metadata, newMatches);
    if row in f.rows {
      assert g.rows.Keys == f.rows.Keys;
    } else {
      assert g.rows.Keys == f.rows.Keys + {row};
    }
  }

  /** The default file state is the one `try_new` refuses to build. */
  lemma DefaultIsNotConstructible()
    ensures FileState.TryNew(FileState.Default().rows) == None
  {
  }
}
