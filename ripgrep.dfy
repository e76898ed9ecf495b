/**
 * The search engine (adapters/gateways/ripgrep.rs): the matcher it owns, the
 * scan of a text or a file into a file state, the recursive workspace walk and
 * the recompilation of the keyword pattern.
 *
 * The regex engine and the file system are not modelled: an `Engine` gives,
 * for a pattern, whether it compiles and where it matches in a line, and the
 * directory tree is an `Entry` value.
 */
module RipGrepGateway {
  import opened Wrappers
  import opened Coordinates
  import opened Metadata
  import opened FileMatches
  import opened Errors
  import opened Searcher
  import opened WorkspaceState

  /** Where one match lies in a line: `line[start..end]`. */
  datatype Span = Span(start: nat, end: nat)

  /** The regex library as the server sees it: `syntaxError(p)` is `None` when
      `p` compiles and the library's message otherwise; `findAll(p, line)` is
      what `try_find_iter` reports for the compiled `p` on `line`, in order. */
  datatype Engine = Engine(syntaxError: string -> Option<string>, findAll: (string, string) -> seq<Span>)

  predicate SpansWithin(spans: seq<Span>, len: nat) {
    forall i :: 0 <= i < |spans| ==> spans[i].start <= spans[i].end <= len
  }

  /** The library reports matches inside the line it was given. */
  ghost predicate WellBehaved(engine: Engine) {
    forall pattern, line :: SpansWithin(engine.findAll(pattern, line), |line|)
  }

  /** Rust's `char::is_whitespace`: the Unicode White_Space property. */
  predicate IsWhiteSpace(c: char) {
    var n := c as int;
    || 0x09 <= n <= 0x0D || n == 0x20 || n == 0x85 || n == 0xA0 || n == 0x1680
    || 0x2000 <= n <= 0x200A || n == 0x2028 || n == 0x2029 || n == 0x202F
    || n == 0x205F || n == 0x3000
  }

  /** The first non-whitespace position of a line, or its length when it has none. */
  function FirstNonWhiteSpace(text: string): (i: nat)
    ensures i <= |text|
    ensures forall j :: 0 <= j < i ==> IsWhiteSpace(text[j])
    ensures i < |text| ==> !IsWhiteSpace(text[i])
  {
    if |text| == 0 || !IsWhiteSpace(text[0]) then 0 else 1 + FirstNonWhiteSpace(text[1..])
  }

  /** The length of the first line of a non-empty text, its terminator included. */
  function FirstLineLength(text: string): (n: nat)
    requires |text| > 0
    ensures 1 <= n <= |text|
    ensures forall j :: 0 <= j < n - 1 ==> text[j] != '\n'
    ensures n < |text| ==> text[n - 1] == '\n'
  {
    if text[0] == '\n' || |text| == 1 then 1 else 1 + FirstLineLength(text[1..])
  }

  function Concat(lines: seq<string>): string {
    if |lines| == 0 then "" else lines[0] + Concat(lines[1..])
  }

  /** The lines the searcher reports, each with its `\n` terminator (the last
      one may lack it): none is empty, and together they are the text. */
  function Lines(text: string): (lines: seq<string>)
    ensures forall i :: 0 <= i < |lines| ==> |lines[i]| > 0
    ensures Concat(lines) == text
    decreases |text|
  {
    if |text| == 0 then []
    else
      var n := FirstLineLength(text);
      var rest := Lines(text[n..]);
      assert ([text[..n]] + rest)[1..] == rest;
      assert text[..n] + text[n..] == text;
      [text[..n]] + rest
  }

  /** Each line holds `\n` only as its last character, and every line but the
      last ends with it. */
  predicate EndsAtNewlines(lines: seq<string>) {
    && (forall i, j :: 0 <= i < |lines| && 0 <= j < |lines[i]| - 1 ==> lines[i][j] != '\n')
    && (forall i :: 0 <= i < |lines| - 1 ==> |lines[i]| > 0 && lines[i][|lines[i]| - 1] == '\n')
  }

  lemma {:induction false} LinesEndAtNewlines(text: string)
    ensures EndsAtNewlines(Lines(text))
    decreases |text|
  {
    if |text| > 0 {
      var n := FirstLineLength(text);
      var rest := Lines(text[n..]);
      LinesEndAtNewlines(text[n..]);
      assert EndsAtNewlines(rest);
      var first := text[..n];
      var lines := [first] + rest;
      assert Lines(text) == lines;
      assert forall j :: 0 <= j < n - 1 ==> first[j] != '\n';
      assert |rest| > 0 ==> |text[n..]| > 0;
      assert |rest| > 0 ==> first[n - 1] == '\n';
      forall i, j | 0 <= i < |lines| && 0 <= j < |lines[i]| - 1
        ensures lines[i][j] != '\n'
      {
        if i > 0 {
          assert lines[i] == rest[i - 1];
        }
      }
      forall i | 0 <= i < |lines| - 1
        ensures |lines[i]| > 0 && lines[i][|lines[i]| - 1] == '\n'
      {
        if i > 0 {
          assert lines[i] == rest[i - 1];
        }
      }
    }
  }

  /** The matches of one line: each starts at its span and keeps the matched text. */
  function LineMatches(line: string, spans: seq<Span>): seq<Match>
    requires SpansWithin(spans, |line|)
  {
    seq(|spans|, i requires 0 <= i < |spans| => Match.New(Column(spans[i].start), line[spans[i].start..spans[i].end]))
  }

  /** What the sink stores for one matching line. */
  function ScanRow(line: string, spans: seq<Span>): RowData
    requires SpansWithin(spans, |line|)
  {
    RowData(RowMetadata.New(|line|, Column(FirstNonWhiteSpace(line))), LineMatches(line, spans))
  }

  predicate Matched(engine: Engine, pattern: string, line: string) {
    |engine.findAll(pattern, line)| > 0
  }

  /** The rows found in the first `n` lines: line number `L` (one-based) is row `L - 1`. */
  function RowsBefore(engine: Engine, pattern: string, lines: seq<string>, n: nat): (rows: map<Row, RowData>)
    requires WellBehaved(engine) && n <= |lines|
    ensures forall r :: r in rows <==> r.value < n && Matched(engine, pattern, lines[r.value])
    ensures forall r :: r in rows ==> rows[r] == ScanRow(lines[r.value], engine.findAll(pattern, lines[r.value]))
  {
    if n == 0 then map[]
    else
      var before := RowsBefore(engine, pattern, lines, n - 1);
      var line := lines[n - 1];
      if Matched(engine, pattern, line) then before[Row(n - 1) := ScanRow(line, engine.findAll(pattern, line))]
      else before
  }

  /** `search_in_text` and `search_in_path` on the text of a document or a file. */
  function ScanText(engine: Engine, pattern: string, text: string): Option<FileState>
    requires WellBehaved(engine)
  {
    var lines := Lines(text);
    FileState.TryNew(RowsBefore(engine, pattern, lines, |lines|))
  }

  /** A scan finds nothing exactly when no line of the text matches. */
  lemma ScanNoneIff(engine: Engine, pattern: string, text: string)
    requires WellBehaved(engine)
    ensures ScanText(engine, pattern, text).None? <==>
      forall i :: 0 <= i < |Lines(text)| ==> engine.findAll(pattern, Lines(text)[i]) == []
  {
    var lines := Lines(text);
    var rows := RowsBefore(engine, pattern, lines, |lines|);
    assert ScanText(engine, pattern, text) == FileState.TryNew(rows);
    if i :| 0 <= i < |lines| && engine.findAll(pattern, lines[i]) != [] {
      assert Row(i) in rows;
      assert rows != map[];
      assert ScanText(engine, pattern, text).Some?;
      assert 0 <= i < |Lines(text)| && engine.findAll(pattern, Lines(text)[i]) != [];
    } else {
      assert forall r :: r !in rows;
      assert rows == map[];
      assert ScanText(engine, pattern, text).None?;
    }
  }

  /** Each row of a scan is a matching line: its number is the line number
      minus one, its metadata is the line's length and first non-whitespace
      column, and its matches are the library's, in order, each starting at
      its span and holding the matched text. */
  lemma ScanRows(engine: Engine, pattern: string, text: string, row: Row)
    requires WellBehaved(engine)
    requires ScanText(engine, pattern, text).Some?
    ensures var lines := Lines(text);
      var rows := ScanText(engine, pattern, text).value.rows;
      row in rows <==> row.value < |lines| && engine.findAll(pattern, lines[row.value]) != []
    ensures var lines := Lines(text);
      var rows := ScanText(engine, pattern, text).value.rows;
      row in rows ==>
        var line := lines[row.value];
        var spans := engine.findAll(pattern, line);
        && rows[row].meta == RowMetadata(|line|, Column(FirstNonWhiteSpace(line)))
        && |rows[row].matches| == |spans|
        && forall k :: 0 <= k < |spans| ==>
             rows[row].matches[k] == Match(Column(spans[k].start), line[spans[k].start..spans[k].end])
  {
    var lines := Lines(text);
    var rows := RowsBefore(engine, pattern, lines, |lines|);
    assert ScanText(engine, pattern, text).value.rows == rows;
    if row in rows {
      var line := lines[row.value];
      var spans := engine.findAll(pattern, line);
      assert rows[row] == ScanRow(line, spans);
      assert rows[row].matches == LineMatches(line, spans);
    }
  }

  /** Whatever a scan returns is well formed: the index can colour every row of it. */
  lemma ScanWellFormed(engine: Engine, pattern: string, text: string)
    requires WellBehaved(engine)
    requires ScanText(engine, pattern, text).Some?
    ensures WellFormed(ScanText(engine, pattern, text).value)
  {
    var lines := Lines(text);
    var rows := RowsBefore(engine, pattern, lines, |lines|);
    forall r | r in rows
      ensures WellFormedRow(rows[r])
    {
      var line := lines[r.value];
      var spans := engine.findAll(pattern, line);
      assert SpansWithin(spans, |line|);
      var d := rows[r];
      assert d.matches == LineMatches(line, spans);
      forall i | 0 <= i < |d.matches|
        ensures d.matches[i].column.value <= d.meta.lineLen
      {
        assert d.matches[i].column.value == spans[i].start;
      }
    }
  }

  // ---- The recursive walk -------------------------------------------------

  /** A directory entry: a readable file with its text, a directory with its
      entries, or anything else (an entry the walk cannot read, or one that is
      neither a regular file nor a directory). */
  datatype Entry = File(name: string, content: string) | Dir(name: string, entries: seq<Entry>) | Other(name: string)

  /** The index `recurssive_search` builds for the entries of `root`, merged in
      the order the walk yields them. */
  function WalkIndex(engine: Engine, pattern: string, root: Path, entries: seq<Entry>): map<string, FileState>
    requires WellBehaved(engine)
    decreases entries
  {
    if |entries| == 0 then map[]
    else
      var before := WalkIndex(engine, pattern, root, entries[..|entries| - 1]);
      var entry := entries[|entries| - 1];
      var path := root + [Normal(entry.name)];
      match entry
      case Dir(_, children) =>
        if ShouldSkip(path) then before else before + WalkIndex(engine, pattern, path, children)
      case File(_, content) =>
        (match ScanText(engine, pattern, content)
         case Some(fileMatches) => before + map[Display(path) := fileMatches]
         case None => before)
      case Other(_) => before
  }

  /** `key` names a file with matches `fs` that the walk reaches from `root`
      through directories it does not skip. */
  ghost predicate Reaches(engine: Engine, pattern: string, root: Path, entries: seq<Entry>, key: string, fs: FileState)
    requires WellBehaved(engine)
    decreases entries
  {
    exists i :: 0 <= i < |entries| && ReachesAt(engine, pattern, root, entries, i, key, fs)
  }

  ghost predicate ReachesAt(engine: Engine, pattern: string, root: Path, entries: seq<Entry>, i: nat, key: string, fs: FileState)
    requires WellBehaved(engine) && i < |entries|
    decreases entries, 0
  {
    var path := root + [Normal(entries[i].name)];
    match entries[i]
    case File(_, content) => key == Display(path) && ScanText(engine, pattern, content) == Some(fs)
    case Dir(_, children) => !ShouldSkip(path) && Reaches(engine, pattern, path, children, key, fs)
    case Other(_) => false
  }

  /** A file that the walk of a prefix of the entries reaches is reached by the walk of all of them. */
  lemma ReachesExtend(engine: Engine, pattern: string, root: Path, entries: seq<Entry>, n: nat, key: string, fs: FileState)
    requires WellBehaved(engine) && n <= |entries|
    requires Reaches(engine, pattern, root, entries[..n], key, fs)
    ensures Reaches(engine, pattern, root, entries, key, fs)
  {
    var i :| 0 <= i < n && ReachesAt(engine, pattern, root, entries[..n], i, key, fs);
    assert entries[..n][i] == entries[i];
    assert ReachesAt(engine, pattern, root, entries, i, key, fs);
  }

  /** What the last entry of a listing adds to the index of the others. */
  function Contribution(engine: Engine, pattern: string, root: Path, entry: Entry): map<string, FileState>
    requires WellBehaved(engine)
  {
    var path := root + [Normal(entry.name)];
    match entry
    case Dir(_, children) => if ShouldSkip(path) then map[] else WalkIndex(engine, pattern, path, children)
    case File(_, content) =>
      (match ScanText(engine, pattern, content)
       case Some(fileMatches) => map[Display(path) := fileMatches]
       case None => map[])
    case Other(_) => map[]
  }

  lemma WalkSplit(engine: Engine, pattern: string, root: Path, entries: seq<Entry>)
    requires WellBehaved(engine) && |entries| > 0
    ensures WalkIndex(engine, pattern, root, entries)
         == WalkIndex(engine, pattern, root, entries[..|entries| - 1]) + Contribution(engine, pattern, root, entries[|entries| - 1])
  {
    var before := WalkIndex(engine, pattern, root, entries[..|entries| - 1]);
    assert before + map[] == before;
  }

  /** Soundness of the walk: every indexed key names a file reached without
      entering a skipped directory, and its entry is the scan of that file. */
  lemma {:induction false} WalkSound(engine: Engine, pattern: string, root: Path, entries: seq<Entry>, key: string)
    requires WellBehaved(engine)
    requires key in WalkIndex(engine, pattern, root, entries)
    ensures Reaches(engine, pattern, root, entries, key, WalkIndex(engine, pattern, root, entries)[key])
    decreases entries, 1
  {
    var n := |entries|;
    var index := WalkIndex(engine, pattern, root, entries);
    var prefix := entries[..n - 1];
    var before := WalkIndex(engine, pattern, root, prefix);
    var added := Contribution(engine, pattern, root, entries[n - 1]);
    WalkSplit(engine, pattern, root, entries);
    if key in added {
      assert index[key] == added[key];
      LastSound(engine, pattern, root, entries, key);
    } else {
      assert key in before && index[key] == before[key];
      WalkSound(engine, pattern, root, prefix, key);
      ReachesExtend(engine, pattern, root, entries, n - 1, key, index[key]);
    }
  }

  /** A key the last entry adds is reached through that entry. */
  lemma {:induction false} LastSound(engine: Engine, pattern: string, root: Path, entries: seq<Entry>, key: string)
    requires WellBehaved(engine) && |entries| > 0
    requires key in Contribution(engine, pattern, root, entries[|entries| - 1])
    ensures ReachesAt(engine, pattern, root, entries, |entries| - 1, key,
                      Contribution(engine, pattern, root, entries[|entries| - 1])[key])
    decreases entries, 0
  {
    var entry := entries[|entries| - 1];
    if entry.Dir? {
      var path := root + [Normal(entry.name)];
      WalkSound(engine, pattern, path, entry.entries, key);
    }
  }

  /** Completeness of the walk: every file with matches that is reached
      without entering a skipped directory is indexed (under its path; a later
      entry of the same path would win). */
  lemma {:induction false} WalkComplete(engine: Engine, pattern: string, root: Path, entries: seq<Entry>, key: string, fs: FileState)
    requires WellBehaved(engine)
    requires Reaches(engine, pattern, root, entries, key, fs)
    ensures key in WalkIndex(engine, pattern, root, entries)
    decreases entries
  {
    var n := |entries|;
    var i :| 0 <= i < n && ReachesAt(engine, pattern, root, entries, i, key, fs);
    var prefix := entries[..n - 1];
    if i < n - 1 {
      assert prefix[i] == entries[i];
      assert ReachesAt(engine, pattern, root, prefix, i, key, fs);
      WalkComplete(engine, pattern, root, prefix, key, fs);
    } else {
      var entry := entries[n - 1];
      var path := root + [Normal(entry.name)];
      if entry.Dir? {
        WalkComplete(engine, pattern, path, entry.entries, key, fs);
      }
    }
  }

  /** When a key names a single reached file, the walk indexes that file's
      scan under it: the file is added under its path, with its own matches. */
  lemma WalkCompleteValue(engine: Engine, pattern: string, root: Path, entries: seq<Entry>, key: string, fs: FileState)
    requires WellBehaved(engine)
    requires Reaches(engine, pattern, root, entries, key, fs)
    requires forall other :: Reaches(engine, pattern, root, entries, key, other) ==> other == fs
    ensures key in WalkIndex(engine, pattern, root, entries)
    ensures WalkIndex(engine, pattern, root, entries)[key] == fs
  {
    WalkComplete(engine, pattern, root, entries, key, fs);
    WalkSound(engine, pattern, root, entries, key);
  }

  /** Every file state the walk indexes is well formed. */
  lemma {:induction false} WalkWellFormed(engine: Engine, pattern: string, root: Path, entries: seq<Entry>)
    requires WellBehaved(engine)
    ensures var index := WalkIndex(engine, pattern, root, entries);
      forall key :: key in index ==> WellFormed(index[key])
    decreases entries
  {
    var index := WalkIndex(engine, pattern, root, entries);
    forall key | key in index
      ensures WellFormed(index[key])
    {
      WalkSound(engine, pattern, root, entries, key);
      ReachedIsWellFormed(engine, pattern, root, entries, key, index[key]);
    }
  }

  lemma {:induction false} ReachedIsWellFormed(engine: Engine, pattern: string, root: Path, entries: seq<Entry>, key: string, fs: FileState)
    requires WellBehaved(engine)
    requires Reaches(engine, pattern, root, entries, key, fs)
    ensures WellFormed(fs)
    decreases entries
  {
    var i :| 0 <= i < |entries| && ReachesAt(engine, pattern, root, entries, i, key, fs);
    var path := root + [Normal(entries[i].name)];
    match entries[i]
    case File(_, content) => ScanWellFormed(engine, pattern, content);
    case Dir(_, children) => ReachedIsWellFormed(engine, pattern, path, children, key, fs);
  }

  /** Two listings whose entries contribute alike give the same index. */
  lemma {:induction false} WalkCongruent(engine: Engine, pattern: string, root: Path, a: seq<Entry>, b: seq<Entry>)
    requires WellBehaved(engine) && |a| == |b|
    requires forall k :: 0 <= k < |a| ==> Contribution(engine, pattern, root, a[k]) == Contribution(engine, pattern, root, b[k])
    ensures WalkIndex(engine, pattern, root, a) == WalkIndex(engine, pattern, root, b)
    decreases |a|
  {
    if |a| > 0 {
      var n := |a|;
      WalkSplit(engine, pattern, root, a);
      WalkSplit(engine, pattern, root, b);
      WalkCongruent(engine, pattern, root, a[..n - 1], b[..n - 1]);
    }
  }

  /** What a skipped directory holds does not matter to the walk. */
  lemma SkippedDirectoryIgnored(engine: Engine, pattern: string, root: Path, entries: seq<Entry>, i: nat, newEntries: seq<Entry>)
    requires WellBehaved(engine)
    requires i < |entries| && entries[i].Dir? && ShouldSkip(root + [Normal(entries[i].name)])
    ensures WalkIndex(engine, pattern, root, entries[i := Dir(entries[i].name, newEntries)])
         == WalkIndex(engine, pattern, root, entries)
  {
    var changed := entries[i := Dir(entries[i].name, newEntries)];
    SkippedContributesNothing(engine, pattern, root, entries[i], newEntries);
    WalkCongruent(engine, pattern, root, changed, entries);
  }

  /** A skipped directory adds nothing to the index, whatever it holds. */
  lemma SkippedContributesNothing(engine: Engine, pattern: string, root: Path, entry: Entry, newEntries: seq<Entry>)
    requires WellBehaved(engine)
    requires entry.Dir? && ShouldSkip(root + [Normal(entry.name)])
    ensures Contribution(engine, pattern, root, entry) == map[]
    ensures Contribution(engine, pattern, root, Dir(entry.name, newEntries)) == map[]
  {
  }

  // ---- The keyword pattern -------------------------------------------------

  /** The message `update_regex` gives for an empty keyword list, as written. */
  const EmptyKeywordsMessage: string := "Cannot empty list of keyowrds"

  /** `key_words.join("|")`. */
  function JoinAlternation(words: seq<string>): string {
    if |words| == 0 then ""
    else if |words| == 1 then words[0]
    else words[0] + "|" + JoinAlternation(words[1..])
  }

  /** The position of the first `|` of a text that has one. */
  function FirstBar(s: string): (i: nat)
    requires '|' in s
    ensures i < |s| && s[i] == '|'
    ensures forall j :: 0 <= j < i ==> s[j] != '|'
  {
    if s[0] == '|' then 0 else 1 + FirstBar(s[1..])
  }

  /** The alternatives of a pattern, split at every `|`. */
  function SplitAlternation(s: string): (parts: seq<string>)
    decreases |s|
  {
    if '|' !in s then [s]
    else
      var i := FirstBar(s);
      [s[..i]] + SplitAlternation(s[i + 1..])
  }

  /** The joined pattern holds each keyword as one alternative: splitting it
      at `|` gives back the keyword list, when no keyword holds a `|`. */
  lemma {:induction false} JoinSplit(words: seq<string>)
    requires |words| > 0
    requires forall k :: 0 <= k < |words| ==> '|' !in words[k]
    ensures SplitAlternation(JoinAlternation(words)) == words
  {
    if |words| > 1 {
      var w := words[0];
      var rest := JoinAlternation(words[1..]);
      var s := w + "|" + rest;
      assert s[|w|] == '|';
      assert forall j :: 0 <= j < |w| ==> s[j] == w[j];
      assert FirstBar(s) == |w|;
      assert s[..|w|] == w;
      assert s[|w| + 1..] == rest;
      JoinSplit(words[1..]);
      assert [w] + words[1..] == words;
    }
  }

  /** The searcher: the matcher it owns, known by the pattern it was compiled from. */
  class RipGrepSearcher {
    const engine: Engine
    var pattern: string

    /** `RipGrepSearcher::default()`: the pattern `TODO`; `unwrap` panics if it does not compile. */
    constructor Default(engine: Engine)
      requires engine.syntaxError("TODO") == None
      ensures this.engine == engine && pattern == "TODO"
    {
      this.engine := engine;
      pattern := "TODO";
    }

    /** A searcher over a pattern that compiles: what `try_from_regex` builds when it succeeds. */
    constructor FromPattern(engine: Engine, pattern: string)
      requires TryFromRegex(engine, pattern).Ok?
      ensures this.engine == engine && this.pattern == pattern
    {
      this.engine := engine;
      this.pattern := pattern;
    }

    /** `RipGrepSearcher::first_non_white_space_position`. */
    method FirstNonWhiteSpacePosition(text: string) returns (c: Column)
      ensures c.value == FirstNonWhiteSpace(text)
    {
      var i := 0;
      while i < |text|
        invariant 0 <= i <= |text|
        invariant forall j :: 0 <= j < i ==> IsWhiteSpace(text[j])
      {
        if !IsWhiteSpace(text[i]) {
          return Column.From(i);
        }
        i := i + 1;
      }
      return Column.From(|text|);
    }

    /** The `try_find_iter` callback: one match per span, in order. */
    method CollectMatches(line: string, spans: seq<Span>) returns (matches: seq<Match>)
      requires SpansWithin(spans, |line|)
      ensures matches == LineMatches(line, spans)
    {
      matches := [];
      var k := 0;
      while k < |spans|
        invariant 0 <= k <= |spans|
        invariant |matches| == k
        invariant forall j :: 0 <= j < k ==>
          matches[j] == Match(Column(spans[j].start), line[spans[j].start..spans[j].end])
      {
        var m := spans[k];
        matches := matches + [Match.New(Column.From(m.start), line[m.start..m.end])];
        k := k + 1;
      }
    }

    /** The sink's work for one matching line: its metadata and its matches. */
    method ScanLine(line: string, spans: seq<Span>) returns (d: RowData)
      requires SpansWithin(spans, |line|)
      ensures d == ScanRow(line, spans)
    {
      var firstNonEmptyCol := FirstNonWhiteSpacePosition(line);
      var metadata := RowMetadata.New(|line|, firstNonEmptyCol);
      var matches := CollectMatches(line, spans);
      d := RowData(metadata, matches);
    }

    /** The sink shared by `search_in_text` and `search_in_path`: one row per
        matching line, then `FileState::try_new`. */
    method Scan(lines: seq<string>) returns (r: Option<FileState>)
      requires WellBehaved(engine)
      ensures r == FileState.TryNew(RowsBefore(engine, pattern, lines, |lines|))
    {
      var fileMatches: map<Row, RowData> := map[];
      var lineNum := 1;
      while lineNum <= |lines|
        invariant 1 <= lineNum <= |lines| + 1
        invariant fileMatches == RowsBefore(engine, pattern, lines, lineNum - 1)
      {
        var line := lines[lineNum - 1];
        var spans := engine.findAll(pattern, line);
        if |spans| > 0 {
          var row := Row.From(lineNum - 1);
          var rowData := ScanLine(line, spans);
          fileMatches := fileMatches[row := rowData];
        }
        lineNum := lineNum + 1;
      }
      r := FileState.TryNew(fileMatches);
    }

    /** `search_in_text`: the rows of an in-memory document. */
    method SearchInText(text: string) returns (r: Option<FileState>)
      requires WellBehaved(engine)
      ensures r == ScanText(engine, pattern, text)
      ensures r.Some? ==> WellFormed(r.value)
    {
      r := Scan(Lines(text));
      if r.Some? {
        ScanWellFormed(engine, pattern, text);
      }
    }

    /** `search_in_path`: the rows of a file, given by the text the library reads from it. */
    method SearchInPath(content: string) returns (r: Option<FileState>)
      requires WellBehaved(engine)
      ensures r == ScanText(engine, pattern, content)
    {
      r := Scan(Lines(content));
    }

    /** `recurssive_search`: walk the entries of `root`, merging what is found. */
    method RecursiveSearch(root: Path, entries: seq<Entry>) returns (state: State)
      requires WellBehaved(engine)
      ensures fresh(state)
      ensures state.inner == WalkIndex(engine, pattern, root, entries)
      decreases entries
    {
      state := new State.Default();
      var i := 0;
      while i < |entries|
        invariant 0 <= i <= |entries|
        invariant fresh(state)
        invariant state.inner == WalkIndex(engine, pattern, root, entries[..i])
      {
        var entry := entries[i];
        var path := root + [Normal(entry.name)];
        assert entries[..i + 1][..i] == entries[..i] && entries[..i + 1][i] == entry;
        WalkSplit(engine, pattern, root, entries[..i + 1]);
        ghost var before := state.inner;
        ghost var added := Contribution(engine, pattern, root, entry);
        if entry.Dir? {
          if !ShouldSkip(path) {
            var sub := RecursiveSearch(path, entry.entries);
            state.Extend(sub);
          } else {
            assert before + added == before;
          }
        } else if entry.File? {
          var fileMatches := SearchInPath(entry.content);
          if fileMatches.Some? {
            var single := new State.FromFileMatches(Display(path), fileMatches.value);
            state.Extend(single);
          } else {
            assert before + added == before;
          }
        } else {
          assert before + added == before;
        }
        assert state.inner == before + added;
        i := i + 1;
      }
      assert entries[..|entries|] == entries;
    }

    /** `update_regex`: refuses an empty list; otherwise compiles the `|`-join
        of the keywords and, only if that succeeds, replaces the matcher. */
    method UpdateRegex(keyWords: seq<string>) returns (r: Result<(), Error>)
      modifies this
      ensures keyWords == [] ==> r == Err(InvalidRegex(EmptyKeywordsMessage)) && pattern == old(pattern)
      ensures keyWords != [] && engine.syntaxError(JoinAlternation(keyWords)).None? ==>
        r == Ok(()) && pattern == JoinAlternation(keyWords)
      ensures keyWords != [] && engine.syntaxError(JoinAlternation(keyWords)).Some? ==>
        r == Err(InvalidRegex(engine.syntaxError(JoinAlternation(keyWords)).value)) && pattern == old(pattern)
    {
      if keyWords == [] {
        return Err(InvalidRegex(EmptyKeywordsMessage));
      }
      var regex := JoinAlternation(keyWords);
      match TryFromRegex(engine, regex)
      case Ok(newMatcher) =>
        pattern := newMatcher;
        r := Ok(());
      case Err(e) =>
        r := Err(e);
    }
  }

  /** `RipGrepSearcher::try_from_regex`: the matcher compiled from a pattern, or
      the library's message as an `InvalidRegex` error. */
  function TryFromRegex(engine: Engine, pattern: string): (r: Result<string, Error>)
    ensures r.Ok? <==> engine.syntaxError(pattern).None?
    ensures r.Ok? ==> r.value == pattern
    ensures r.Err? ==> r.error == InvalidRegex(engine.syntaxError(pattern).value)
  {
    match engine.syntaxError(pattern)
    case None => Ok(pattern)
    case Some(message) => Err(InvalidRegex(message))
  }
}
