/**
 * The language-server backend: the workspace index, the searcher and the
 * palette, driven by `initialize`, `did_change` and `document_color`.
 * Requests are modelled one at a time; the locks around the three parts are
 * not modelled.
 */
module LspController {
  import opened Wrappers
  import opened Coordinates
  import opened ColorEntity
  import opened Metadata
  import opened Errors
  import opened FileMatches
  import opened WorkspaceState
  import opened Colorer
  import opened Searcher
  import opened RipGrepGateway
  import opened Config
  import opened ColorProviderGateway
  import opened HighlightController

  /** What a request handler does: return a value, or panic (an `unwrap` on `None`). */
  datatype Outcome<T> = Returns(value: T) | Panics

  /** One coloured range of a document, on one row. */
  datatype ColorInformation = ColorInformation(start: Position, end: Position, color: Color)

  /** The protocol error the handlers return. */
  datatype LspError = InvalidParams(message: string)

  /** The first folder of the workspace: the path of its URI and what lies below it. */
  datatype WorkspaceFolder = WorkspaceFolder(root: Path, listing: seq<Entry>)

  /** One change of a document, under full synchronisation: its whole new text. */
  datatype ContentChange = ContentChange(text: string)

  const NoWorkspaceFolderMessage: string := "No workspace folder to operate on"
  const EmptyWorkspaceFoldersMessage: string := "Workspace folders are empty"

  /** The `Debug` rendering of an error, as `init` reports it. */
  function ErrorDebug(e: Error): (s: string)
    ensures |s| >= 16 && s[..14] == "InvalidRegex(\"" && s[14..|s| - 2] == e.reason && s[|s| - 2..] == "\")"
  {
    "InvalidRegex(\"" + e.reason + "\")"
  }

  // ---- document_color -------------------------------------------------------

  /** No keyword of the row misses a colour in the palette. */
  predicate Colored(data: RowData, palette: map<string, Colors>) {
    forall i :: 0 <= i < |data.matches| ==> data.matches[i].keyword in palette
  }

  /** The items of one row: interval `i` of the row, in the background colour of
      match `i`'s keyword; a keyword without a colour panics. */
  function RowItems(row: Row, data: RowData, palette: map<string, Colors>): (r: Outcome<seq<ColorInformation>>)
    requires WellFormedRow(data)
    ensures r.Panics? <==> !Colored(data, palette)
    ensures r.Returns? ==> |r.value| == |data.matches|
  {
    if !Colored(data, palette) then Panics
    else
      var ivs := Intervals(data.matches, data.meta);
      Returns(seq(|data.matches|, i requires 0 <= i < |data.matches| =>
        ColorInformation(Position.New(row, ivs[i].0), Position.New(row, ivs[i].1),
                         palette[data.matches[i].keyword].Pick(Background))))
  }

  /** Item `i` of a row spans interval `i` of the row and has the background
      colour of match `i`'s keyword. */
  lemma RowItemsContent(row: Row, data: RowData, palette: map<string, Colors>, i: nat)
    requires WellFormedRow(data) && Colored(data, palette) && i < |data.matches|
    ensures var iv := Intervals(data.matches, data.meta)[i];
      RowItems(row, data, palette).value[i] ==
        ColorInformation(Position(row, iv.0), Position(row, iv.1), palette[data.matches[i].keyword].background)
  {
  }

  /** Both parts returned: their concatenation; otherwise a panic. */
  function Combine(x: Outcome<seq<ColorInformation>>, y: Outcome<seq<ColorInformation>>): Outcome<seq<ColorInformation>> {
    if x.Panics? || y.Panics? then Panics else Returns(x.value + y.value)
  }

  /** Every row named by `order` is a row of the file. */
  predicate RowsOf(order: seq<Row>, fs: FileState) {
    forall i :: 0 <= i < |order| ==> order[i] in fs.rows
  }

  /** The items of each row of a file, as a function of the row. */
  function RowItemsOf(fs: FileState, palette: map<string, Colors>): Row -> Outcome<seq<ColorInformation>> {
    row => if row in fs.rows && WellFormedRow(fs.rows[row]) then RowItems(row, fs.rows[row], palette) else Returns([])
  }

  /** The items of the rows in `order`, row after row; a panic on any row panics. */
  function ItemsOf(rowItems: Row -> Outcome<seq<ColorInformation>>, order: seq<Row>): Outcome<seq<ColorInformation>>
    decreases |order|
  {
    if order == [] then Returns([]) else Combine(rowItems(order[0]), ItemsOf(rowItems, order[1..]))
  }

  /** The items of the rows of a well-formed file, taken in `order`. */
  function ItemsOfRows(fs: FileState, palette: map<string, Colors>, order: seq<Row>): Outcome<seq<ColorInformation>>
    requires WellFormed(fs) && RowsOf(order, fs)
  {
    ItemsOf(RowItemsOf(fs, palette), order)
  }

  /** The number of matches on the rows named by `order`. */
  function MatchCount(fs: FileState, order: seq<Row>): nat
    requires RowsOf(order, fs)
    decreases |order|
  {
    if order == [] then 0 else |fs.rows[order[0]].matches| + MatchCount(fs, order[1..])
  }

  /** `order` lists every row of the file once: one iteration order of its map. */
  predicate Enumerates(order: seq<Row>, fs: FileState) {
    (forall r :: r in order ==> r in fs.rows) && (forall r :: r in fs.rows ==> r in order) &&
    (forall i, j :: 0 <= i < j < |order| ==> order[i] != order[j])
  }

  /** `document_color` on the index and the palette, with the rows of the
      document taken in `order`. A document that is not indexed has no items. */
  function DocumentColorItems(index: map<string, FileState>, palette: map<string, Colors>,
                              path: string, order: seq<Row>): (r: Outcome<seq<ColorInformation>>)
    requires path in index ==> WellFormed(index[path]) && Enumerates(order, index[path])
    ensures path !in index ==> r == Returns([])
  {
    if path !in index then Returns([])
    else ItemsOfRows(index[path], palette, order)
  }

  /** Peeling the first row off a non-empty order. */
  lemma ItemsOfRowsFirst(fs: FileState, palette: map<string, Colors>, order: seq<Row>)
    requires WellFormed(fs) && RowsOf(order, fs) && order != []
    ensures RowsOf(order[1..], fs)
    ensures ItemsOfRows(fs, palette, order)
         == Combine(RowItems(order[0], fs.rows[order[0]], palette), ItemsOfRows(fs, palette, order[1..]))
  {
    assert RowsOf(order[1..], fs) by {
      forall i | 0 <= i < |order| - 1 ensures order[1..][i] in fs.rows { assert order[1..][i] == order[i + 1]; }
    }
    assert RowItemsOf(fs, palette)(order[0]) == RowItems(order[0], fs.rows[order[0]], palette);
  }

  /** One item per match: the count is the sum of the rows' match counts. */
  lemma {:induction false} ItemsCount(fs: FileState, palette: map<string, Colors>, order: seq<Row>)
    requires WellFormed(fs) && RowsOf(order, fs)
    ensures ItemsOfRows(fs, palette, order).Returns? ==> |ItemsOfRows(fs, palette, order).value| == MatchCount(fs, order)
    decreases |order|
  {
    if order != [] {
      ItemsOfRowsFirst(fs, palette, order);
      ItemsCount(fs, palette, order[1..]);
    }
  }

  /** The request panics exactly when some match on a listed row has a keyword without a colour. */
  lemma {:induction false} ItemsPanic(fs: FileState, palette: map<string, Colors>, order: seq<Row>)
    requires WellFormed(fs) && RowsOf(order, fs)
    ensures ItemsOfRows(fs, palette, order).Panics? <==>
      exists i :: 0 <= i < |order| && !Colored(fs.rows[order[i]], palette)
    decreases |order|
  {
    if order != [] {
      ItemsOfRowsFirst(fs, palette, order);
      ItemsPanic(fs, palette, order[1..]);
      if exists i :: 0 <= i < |order| - 1 && !Colored(fs.rows[order[1..][i]], palette) {
        var i :| 0 <= i < |order| - 1 && !Colored(fs.rows[order[1..][i]], palette);
        assert !Colored(fs.rows[order[i + 1]], palette);
      }
      if exists i :: 0 <= i < |order| && !Colored(fs.rows[order[i]], palette) {
        var i :| 0 <= i < |order| && !Colored(fs.rows[order[i]], palette);
        if i > 0 {
          assert order[1..][i - 1] == order[i];
        }
      }
    }
  }

  /** Splitting the row order splits the items. */
  lemma {:induction false} ItemsAppend(rowItems: Row -> Outcome<seq<ColorInformation>>, a: seq<Row>, b: seq<Row>)
    ensures ItemsOf(rowItems, a + b) == Combine(ItemsOf(rowItems, a), ItemsOf(rowItems, b))
    decreases |a|
  {
    if a == [] {
      assert a + b == b;
      var z := ItemsOf(rowItems, b);
      if z.Returns? {
        assert [] + z.value == z.value;
      }
    } else {
      assert (a + b)[0] == a[0];
      assert (a + b)[1..] == a[1..] + b;
      ItemsAppend(rowItems, a[1..], b);
      var x := rowItems(a[0]);
      var y := ItemsOf(rowItems, a[1..]);
      var z := ItemsOf(rowItems, b);
      if x.Returns? && y.Returns? && z.Returns? {
        assert x.value + (y.value + z.value) == (x.value + y.value) + z.value;
      }
    }
  }

  /** Two outcomes that panic alike and, when they return, return the same items up to order. */
  ghost predicate SameItems(p: Outcome<seq<ColorInformation>>, q: Outcome<seq<ColorInformation>>) {
    p.Panics? == q.Panics? && (p.Returns? ==> multiset(p.value) == multiset(q.value))
  }

  /** Moving the first part of a combination to the middle keeps the items. */
  lemma CombineMove(x: Outcome<seq<ColorInformation>>, y: Outcome<seq<ColorInformation>>,
                    z: Outcome<seq<ColorInformation>>, w: Outcome<seq<ColorInformation>>)
    requires SameItems(w, Combine(y, z))
    ensures SameItems(Combine(x, w), Combine(Combine(y, Combine(x, Returns([]))), z))
  {
    if x.Returns? && y.Returns? && z.Returns? && w.Returns? {
      assert x.value + [] == x.value;
      calc {
        multiset(x.value + w.value);
        multiset(x.value) + multiset(w.value);
        multiset(x.value) + multiset(y.value + z.value);
        multiset(y.value + x.value + z.value);
      }
    }
  }

  /** The items depend only on the multiset of rows, not on their order. */
  lemma {:induction false} ItemsPermutation(rowItems: Row -> Outcome<seq<ColorInformation>>, o1: seq<Row>, o2: seq<Row>)
    requires multiset(o1) == multiset(o2)
    ensures SameItems(ItemsOf(rowItems, o1), ItemsOf(rowItems, o2))
    decreases |o1|
  {
    if o1 == [] {
      assert |o2| == |multiset(o2)| == 0;
    } else {
      var h := o1[0];
      assert h in multiset(o2);
      var j :| 0 <= j < |o2| && o2[j] == h;
      var pre, post := o2[..j], o2[j + 1..];
      assert o2 == pre + [h] + post;
      var x := rowItems(h);
      var y := ItemsOf(rowItems, pre);
      var z := ItemsOf(rowItems, post);
      var w := ItemsOf(rowItems, o1[1..]);
      RemoveOne(o1, o2, j);
      ItemsAppend(rowItems, pre, post);
      ItemsPermutation(rowItems, o1[1..], pre + post);
      assert [h][1..] == [];
      assert ItemsOf(rowItems, [h]) == Combine(x, Returns([]));
      ItemsAppend(rowItems, pre, [h]);
      ItemsAppend(rowItems, pre + [h], post);
      CombineMove(x, y, z, w);
    }
  }

  /** Taking the first row off one order and its occurrence off the other leaves equal multisets. */
  lemma RemoveOne(o1: seq<Row>, o2: seq<Row>, j: nat)
    requires o1 != [] && j < |o2| && o2[j] == o1[0]
    requires multiset(o1) == multiset(o2)
    ensures multiset(o1[1..]) == multiset(o2[..j] + o2[j + 1..])
  {
    assert o1 == [o1[0]] + o1[1..];
    assert o2 == o2[..j] + [o2[j]] + o2[j + 1..];
    assert multiset(o1) == multiset{o1[0]} + multiset(o1[1..]);
    assert multiset(o2) == multiset(o2[..j]) + multiset{o1[0]} + multiset(o2[j + 1..]);
    assert multiset(o2[..j] + o2[j + 1..]) == multiset(o2[..j]) + multiset(o2[j + 1..]);
    assert multiset(o1[1..]) == multiset(o1) - multiset{o1[0]};
  }

  /** In a sequence without repeats, each element occurs once. */
  lemma {:induction false} DistinctMultiset(s: seq<Row>, x: Row)
    requires forall i, j :: 0 <= i < j < |s| ==> s[i] != s[j]
    ensures multiset(s)[x] == if x in s then 1 else 0
  {
    if s != [] {
      assert s == [s[0]] + s[1..];
      DistinctMultiset(s[1..], x);
      if x == s[0] {
        assert x !in s[1..];
      }
    }
  }

  /** Any two iteration orders of a file's rows list the same rows, once each. */
  lemma EnumerationsArePermutations(fs: FileState, o1: seq<Row>, o2: seq<Row>)
    requires Enumerates(o1, fs) && Enumerates(o2, fs)
    ensures multiset(o1) == multiset(o2)
  {
    forall x ensures multiset(o1)[x] == multiset(o2)[x] {
      DistinctMultiset(o1, x);
      DistinctMultiset(o2, x);
    }
  }

  /** `document_color` answers the same items, up to their order, for every
      iteration order of the document's rows; and it panics for all of them or none. */
  lemma DocumentColorOrderIndependent(index: map<string, FileState>, palette: map<string, Colors>,
                                      path: string, o1: seq<Row>, o2: seq<Row>)
    requires path in index ==> WellFormed(index[path]) && Enumerates(o1, index[path]) && Enumerates(o2, index[path])
    ensures SameItems(DocumentColorItems(index, palette, path, o1), DocumentColorItems(index, palette, path, o2))
  {
    if path in index {
      var fs := index[path];
      EnumerationsArePermutations(fs, o1, o2);
      ItemsPermutation(RowItemsOf(fs, palette), o1, o2);
    }
  }

  /** `document_color` on an indexed document: one item per match, and a panic
      exactly when a stored keyword has no colour in the palette. */
  lemma DocumentColorItemsOfFile(index: map<string, FileState>, palette: map<string, Colors>, path: string, order: seq<Row>)
    requires path in index && WellFormed(index[path]) && Enumerates(order, index[path])
    ensures var r := DocumentColorItems(index, palette, path, order);
      (r.Panics? <==> exists row :: row in index[path].rows && !Colored(index[path].rows[row], palette)) &&
      (r.Returns? ==> |r.value| == MatchCount(index[path], order))
  {
    var fs := index[path];
    ItemsCount(fs, palette, order);
    ItemsPanic(fs, palette, order);
    if exists row :: row in fs.rows && !Colored(fs.rows[row], palette) {
      var row :| row in fs.rows && !Colored(fs.rows[row], palette);
      var i :| 0 <= i < |order| && order[i] == row;
    }
  }

  // ---- the backend ----------------------------------------------------------

  /** A list of the keys of a palette, in some order: the iteration order of the map. */
  method KeysOf(m: map<string, Colors>) returns (keys: seq<string>)
    ensures forall k :: k in keys <==> k in m
    ensures forall i, j :: 0 <= i < j < |keys| ==> keys[i] != keys[j]
  {
    keys := [];
    var remaining := m.Keys;
    while remaining != {}
      invariant remaining <= m.Keys
      invariant forall k :: k in keys <==> k in m && k !in remaining
      invariant forall i, j :: 0 <= i < j < |keys| ==> keys[i] != keys[j]
      decreases |remaining|
    {
      var k :| k in remaining;
      keys := keys + [k];
      remaining := remaining - {k};
    }
  }

  /** `keys` lists the keywords of the palette, each once. */
  predicate ListsKeys(keys: seq<string>, m: map<string, Colors>) {
    (forall k :: k in keys ==> k in m) && (forall k :: k in m ==> k in keys) &&
    (forall i, j :: 0 <= i < j < |keys| ==> keys[i] != keys[j])
  }

  /** Every entry of the index is well formed. */
  ghost predicate IndexWellFormed(index: map<string, FileState>) {
    forall k :: k in index ==> WellFormed(index[k])
  }

  /** The index after a change to `path`: the new scan is stored, or the entry is dropped. */
  function Applied(index: map<string, FileState>, path: string, scan: Option<FileState>): (r: map<string, FileState>)
    ensures scan.Some? ==> path in r && r[path] == scan.value
    ensures scan.None? ==> path !in r
    ensures forall k :: k != path ==> (k in r <==> k in index)
    ensures forall k :: k != path && k in index ==> r[k] == index[k]
  {
    match scan
    case Some(fs) => index[path := fs]
    case None => index - {path}
  }

  lemma IndexUpdateWellFormed(index: map<string, FileState>, path: string, fs: FileState)
    requires IndexWellFormed(index) && WellFormed(fs)
    ensures IndexWellFormed(index[path := fs])
  {
  }

  lemma IndexMergeWellFormed(index: map<string, FileState>, other: map<string, FileState>)
    requires IndexWellFormed(index) && IndexWellFormed(other)
    ensures IndexWellFormed(index + other)
  {
  }

  class Backend {
    const state: State
    const grep: RipGrepSearcher
    const highlighter: Highlight

    /** The searcher's engine keeps spans inside lines, and every indexed file is well formed. */
    ghost predicate Valid()
      reads this, state
    {
      WellBehaved(grep.engine) && IndexWellFormed(state.inner)
    }

    /** `new_server`: an empty index, a searcher for the configured keywords
        (listed in the map's iteration order `keyWords`) and a palette with
        each keyword's background colour. The searcher must compile, or
        `expect` panics. */
    constructor NewServer(engine: Engine, config: Config, keyWords: seq<string>)
      requires WellBehaved(engine)
      requires (forall k :: k in keyWords <==> k in config.highlights) &&
               (forall i, j :: 0 <= i < j < |keyWords| ==> keyWords[i] != keyWords[j])
      requires engine.syntaxError(JoinAlternation(keyWords)) == None
      ensures Valid()
      ensures fresh(state) && fresh(grep) && fresh(highlighter) && fresh(highlighter.inner)
      ensures state.inner == map[]
      ensures grep.engine == engine && grep.pattern == JoinAlternation(keyWords)
      ensures highlighter.Colors() == Converted(config.highlights)
    {
      state := new State.Default();
      grep := new RipGrepSearcher.FromPattern(engine, JoinAlternation(keyWords));
      var provider := new ColorProvider.New(Converted(config.highlights));
      highlighter := new Highlight.New(provider);
    }

    /** `update_colors`: merge the configured colours into the palette. */
    method UpdateColors(config: Config)
      modifies highlighter.inner
      ensures highlighter.Colors() == old(highlighter.Colors()) + Converted(config.highlights)
    {
      highlighter.UpdatePalette(config.highlights);
    }

    /** `update_regex`: rebuild the searcher from every keyword of the palette,
        listed in the map's iteration order `keyWords`. */
    method UpdateRegex() returns (r: Result<(), Error>, ghost keyWords: seq<string>)
      modifies grep
      ensures ListsKeys(keyWords, highlighter.Colors())
      ensures keyWords == [] ==> r == Err(InvalidRegex(EmptyKeywordsMessage)) && grep.pattern == old(grep.pattern)
      ensures keyWords != [] && grep.engine.syntaxError(JoinAlternation(keyWords)).None? ==>
        r == Ok(()) && grep.pattern == JoinAlternation(keyWords)
      ensures keyWords != [] && grep.engine.syntaxError(JoinAlternation(keyWords)).Some? ==>
        r == Err(InvalidRegex(grep.engine.syntaxError(JoinAlternation(keyWords)).value)) && grep.pattern == old(grep.pattern)
    {
      var ownedKeys := KeysOf(highlighter.Colors());
      keyWords := ownedKeys;
      r := grep.UpdateRegex(ownedKeys);
    }

    /** `init`: merge the settings into the palette, rebuild the searcher from
        the palette, then index the first workspace folder. `settings` is what
        the initialisation options decoded to (`None` when they are absent or
        do not decode). */
    method Init(settings: Option<map<string, RawUserColors>>, folders: Option<seq<WorkspaceFolder>>)
      returns (r: Result<(), LspError>, ghost keyWords: seq<string>)
      requires Valid()
      modifies highlighter.inner, grep, state
      ensures Valid()
      ensures highlighter.Colors() == old(highlighter.Colors()) + Converted(ParseJson(settings).highlights)
      ensures ListsKeys(keyWords, highlighter.Colors()) && keyWords != []
      ensures grep.engine.syntaxError(JoinAlternation(keyWords)).Some? ==>
        r == Err(InvalidParams(ErrorDebug(InvalidRegex(grep.engine.syntaxError(JoinAlternation(keyWords)).value)))) &&
        grep.pattern == old(grep.pattern) && state.inner == old(state.inner)
      ensures grep.engine.syntaxError(JoinAlternation(keyWords)).None? ==>
        grep.pattern == JoinAlternation(keyWords) &&
        (folders.None? ==> r == Err(InvalidParams(NoWorkspaceFolderMessage)) && state.inner == old(state.inner)) &&
        (folders == Some([]) ==> r == Err(InvalidParams(EmptyWorkspaceFoldersMessage)) && state.inner == old(state.inner)) &&
        (folders.Some? && folders.value != [] ==>
          r == Ok(()) &&
          state.inner == old(state.inner) + WalkIndex(grep.engine, grep.pattern, folders.value[0].root, folders.value[0].listing))
    {
      var config := ParseJson(settings);
      UpdateColors(config);
      var regex;
      regex, keyWords := UpdateRegex();
      assert keyWords != [] by {
        var k :| k in config.highlights;
        assert k in highlighter.Colors();
      }
      if regex.Err? {
        return Err(InvalidParams(ErrorDebug(regex.error))), keyWords;
      }
      r := IndexFirstFolder(folders);
    }

    /** The second half of `init`: index the first workspace folder, if there is one. */
    method IndexFirstFolder(folders: Option<seq<WorkspaceFolder>>) returns (r: Result<(), LspError>)
      requires Valid()
      modifies state
      ensures Valid()
      ensures folders.None? ==> r == Err(InvalidParams(NoWorkspaceFolderMessage)) && state.inner == old(state.inner)
      ensures folders == Some([]) ==> r == Err(InvalidParams(EmptyWorkspaceFoldersMessage)) && state.inner == old(state.inner)
      ensures folders.Some? && folders.value != [] ==>
        r == Ok(()) &&
        state.inner == old(state.inner) + WalkIndex(grep.engine, grep.pattern, folders.value[0].root, folders.value[0].listing)
    {
      match folders {
        case None =>
          r := Err(InvalidParams(NoWorkspaceFolderMessage));
        case Some(fs) =>
          if fs == [] {
            return Err(InvalidParams(EmptyWorkspaceFoldersMessage));
          }
          var initialState := grep.RecursiveSearch(fs[0].root, fs[0].listing);
          WalkWellFormed(grep.engine, grep.pattern, fs[0].root, fs[0].listing);
          IndexMergeWellFormed(state.inner, initialState.inner);
          state.Extend(initialState);
          r := Ok(());
      }
    }

    /** `shutdown` always succeeds. */
    method Shutdown() returns (r: Result<(), LspError>)
      ensures r == Ok(())
    {
      r := Ok(());
    }

    /** `did_change`: rescan the text of the last change only; replace the
        document's entry with the result, or drop it when nothing matched.
        No other document changes, and no change at all leaves the index alone. */
    method DidChange(path: string, changes: seq<ContentChange>)
      requires Valid()
      modifies state
      ensures Valid()
      ensures changes == [] ==> state.inner == old(state.inner)
      ensures changes != [] ==>
        state.inner == Applied(old(state.inner), path, ScanText(grep.engine, grep.pattern, changes[|changes| - 1].text))
    {
      if changes != [] {
        var lastChange := changes[|changes| - 1];
        var newMatches := grep.SearchInText(lastChange.text);
        ApplyScan(path, newMatches);
      }
    }

    /** The `match` of `did_change`: store a found file state, or drop the entry. */
    method ApplyScan(path: string, newMatches: Option<FileState>)
      requires Valid()
      requires newMatches.Some? ==> WellFormed(newMatches.value)
      modifies state
      ensures Valid()
      ensures state.inner == Applied(old(state.inner), path, newMatches)
    {
      match newMatches {
        case Some(fs) =>
          IndexUpdateWellFormed(state.inner, path, fs);
          state.Replace(path, fs);
        case None =>
          state.Remove(path);
      }
    }

    /** `document_color`, with the document's rows taken in `order`, the
        iteration order of its map. */
    function DocumentColor(path: string, order: seq<Row>): (r: Outcome<seq<ColorInformation>>)
      reads this, state, highlighter, highlighter.inner
      requires Valid()
      requires path in state.inner ==> Enumerates(order, state.inner[path])
      ensures r == DocumentColorItems(state.inner, highlighter.Colors(), path, order)
      ensures path !in state.inner ==> r == Returns([])
    {
      DocumentColorItems(state.inner, highlighter.Colors(), path, order)
    }
  }

  // ---- Start-up ---------------------------------------------------------------

  /** `init_server`: the backend built from the default configuration, so the
      palette starts as `TODO` with the default background and the searcher
      looks for `TODO`. */
  method InitServer(engine: Engine) returns (b: Backend)
    requires WellBehaved(engine) && engine.syntaxError("TODO") == None
    ensures fresh(b) && fresh(b.state) && fresh(b.grep) && fresh(b.highlighter) && fresh(b.highlighter.inner)
    ensures b.Valid()
    ensures b.state.inner == map[]
    ensures b.grep.engine == engine && b.grep.pattern == "TODO"
    ensures b.highlighter.Colors() == map["TODO" := ToColors(UserColors(DefaultBackground()))]
  {
    assert JoinAlternation(["TODO"]) == "TODO";
    b := new Backend.NewServer(engine, DefaultConfig(), ["TODO"]);
  }

  /** The server as started, then initialised: `init` merges the settings into
      the starting palette rather than replacing it, so `TODO` keeps a colour
      and is always one of the keywords the pattern is rebuilt from. */
  method StartAndInit(engine: Engine, settings: Option<map<string, RawUserColors>>, folders: Option<seq<WorkspaceFolder>>)
    returns (b: Backend, r: Result<(), LspError>, ghost keyWords: seq<string>)
    requires WellBehaved(engine) && engine.syntaxError("TODO") == None
    ensures b.highlighter.Colors() == Converted(DefaultHighlights()) + Converted(ParseJson(settings).highlights)
    ensures "TODO" in b.highlighter.Colors() && "TODO" in keyWords
    ensures ListsKeys(keyWords, b.highlighter.Colors())
  {
    b := InitServer(engine);
    assert b.highlighter.Colors() == Converted(DefaultHighlights());
    r, keyWords := b.Init(settings, folders);
  }
}
