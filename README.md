# Keyword highlighting language server — a Dafny model

This project models the core of a language server that highlights keywords
such as `TODO` in an editor. The server:

- indexes every file of the workspace that contains a keyword, as a map from
  file path to a per-file state;
- keeps that index current as documents change;
- answers colour requests with one coloured range per keyword occurrence.

A range runs from the occurrence to the next one on the same row. The first
range of a row starts at the row's first non-whitespace column. The last range
ends at the end of the line.

The model has one module per source file:

| Dafny file | module | source |
|---|---|---|
| `coordinates.dfy` | `Coordinates` | `entities/coordinates.rs` |
| `color.dfy` | `ColorEntity` | `entities/color.rs` |
| `metadata.dfy` | `Metadata`, `Errors` | `entities/metadata.rs`, `entities/position.rs`, `entities/error.rs` |
| `file_matches.dfy` | `FileMatches` | `entities/file_matches.rs` |
| `state.dfy` | `WorkspaceState` | `entities/state.rs` |
| `colorer.dfy` | `Colorer` | `use_cases/ports/colorer.rs` |
| `searcher.dfy` | `Searcher` | `use_cases/ports/searcher.rs` |
| `ripgrep.dfy` | `RipGrepGateway` | `adapters/gateways/ripgrep.rs` |
| `color_provider.dfy` | `ColorProviderGateway` | `adapters/gateways/color_provider.rs` |
| `highlighter.dfy` | `HighlighterGateway` | `adapters/gateways/highlighter.rs` |
| `highlight.dfy` | `HighlightController` | `adapters/controllers/highlight.rs` |
| `config.dfy` | `Config` | `adapters/config.rs` |
| `lsp.dfy` | `LspController` | `adapters/controllers/lsp.rs`, `infrastructure/runtime.rs` |
| `wrappers.dfy` | `Wrappers` | `Option` and `Result` |

Value types are datatypes: `Column`, `Row`, `Color`, `Colors`, `RowMetadata`,
`Position`, `Match` and `FileState`. The objects that the server updates in
place are classes whose methods carry `modifies` clauses: the workspace index
`State`, the searcher, the two palettes, the highlight controller and the
`Backend`.

The loop methods are proved against specifications:

- `ColorIntervals` against the function `Intervals`;
- `FirstNonWhiteSpacePosition` against `FirstNonWhiteSpace`;
- `CollectMatches` against `LineMatches`, and the scan loops against `ScanText`;
- the recursive walk against `WalkIndex`;
- `MergeEntries`, the palette merge, against the map union with `Converted`;
- `KeysOf` against the relation `ListsKeys`: every key exactly once.

`document_color` changes no state: `Backend.DocumentColor` is a function,
defined as `DocumentColorItems` over the index and the palette.

The properties the server relies on are proved as lemmas about those functions.

The server starts from the default configuration: its palette is `TODO` with
the default background, and its pattern is `TODO`. `init` merges the user's
palette into that one rather than replacing it, and rebuilds the pattern from
every palette key. So `TODO` stays coloured and searched whatever the settings
say (`StartAndInit`).

The model leaves three things open, each as an input:

- **The regex library.** An `Engine` value tells, for a pattern, whether it
  compiles (and the library's message if not) and where it matches in a line.
- **The file system.** It is an `Entry` tree.
- **Hash-map iteration order.** Where it is observable, it is a parameter:
  - the order of the keywords in the rebuilt pattern;
  - the order of the rows of a document in `document_color`.

  For `document_color`, a lemma shows that the result does not depend on the
  row order, up to the order of its items. For the rebuilt pattern there is
  no such lemma: the pattern text depends on the keyword order, and so does
  whether it compiles, whenever the engine's answer depends on that order.

## Model

| member | source | states |
|---|---|---|
| Coordinates.Column.From | language_server/src/entities/coordinates.rs:22-26 | the column built from `n` holds exactly `n` |
| Coordinates.Column.Get | language_server/src/entities/coordinates.rs:4-8 | `column()` yields the value `Column::from` rebuilds the same column from |
| Coordinates.Column.Less | language_server/src/entities/coordinates.rs:16-20 | `<` holds exactly when `column()` is smaller, and never between equal columns |
| Coordinates.Column.LessOrEqual | language_server/src/entities/coordinates.rs:16-20 | `<=` holds exactly when `<` holds or the columns are equal |
| Coordinates.ColumnRoundTrip | language_server/src/entities/coordinates.rs:4-26 | `Column::from(n).column() == n`, and building a column from its own value gives it back |
| Coordinates.ColumnEquality | language_server/src/entities/coordinates.rs:10-14 | two columns are equal exactly when their inner values are |
| Coordinates.ColumnOrderIsTotal | language_server/src/entities/coordinates.rs:16-20 | column ordering is total and antisymmetric, and `<` agrees with `<` on the inner values |
| Coordinates.Row.From | language_server/src/entities/coordinates.rs:37-41 | the row built from `n` holds exactly `n` |
| Coordinates.Row.Get | language_server/src/entities/coordinates.rs:31-35 | `row()` yields the value `Row::from` rebuilds the same row from |
| Coordinates.RowRoundTrip | language_server/src/entities/coordinates.rs:31-41 | `Row::from(n).row() == n`, and building a row from its own value gives it back |
| Coordinates.RowEquality | language_server/src/entities/coordinates.rs:28-29 | two rows are equal exactly when their inner values are |
| ColorEntity.Color.New | language_server/src/entities/color.rs:23-27 | each channel of the new colour is the given one |
| ColorEntity.Color.IntoComponents | language_server/src/entities/color.rs:16-21 | the four components are those `Color::new` rebuilds the same colour from |
| ColorEntity.ColorRoundTrip | language_server/src/entities/color.rs:16-27 | `Color::new(r,g,b,a).into_components() == (r,g,b,a)`, and the converse |
| ColorEntity.ChannelsAreBytes | language_server/src/entities/color.rs:9-14 | every channel lies in 0..255 |
| ColorEntity.Colors.New | language_server/src/entities/color.rs:34-38 | `Colors::new(bg).background == bg` |
| ColorEntity.Colors.Pick | language_server/src/adapters/gateways/color_provider.rs:27-29 | asking for the background role yields the background colour |
| ColorEntity.OneColorType | language_server/src/entities/color.rs:3-6 | `Background` is the only colour type |
| Metadata.RowMetadata.New | language_server/src/entities/metadata.rs:14-19 | the metadata holds the given line length and first non-whitespace column |
| Metadata.Position.New | language_server/src/entities/position.rs:14-16 | the position holds the given row and column |
| Metadata.Position.IntoPair | language_server/src/entities/position.rs:18-21 | the pair is the row and column `Position::new` rebuilds the same position from |
| Metadata.PositionRoundTrip | language_server/src/entities/position.rs:14-21 | `new` then `into_pair` gives back the row and the column, and the converse |
| FileMatches.Match.New | language_server/src/entities/file_matches.rs:16-21 | the match stores the column and the matched text verbatim as its keyword |
| FileMatches.FileState.Default | language_server/src/entities/file_matches.rs:24 | the default file state has no rows |
| FileMatches.FileState.TryNew | language_server/src/entities/file_matches.rs:31-33 | `None` exactly when the data is empty; otherwise the rows are the data unchanged, and there is at least one |
| FileMatches.FileState.Replace | language_server/src/entities/file_matches.rs:35-37 | the row maps to the new metadata and matches, the key set gains at most that row, and every other row is unchanged |
| FileMatches.LenCountsRows | language_server/src/entities/file_matches.rs:40-42 | `len` is the number of rows, and it is zero exactly for the empty map |
| FileMatches.ReplaceLen | language_server/src/entities/file_matches.rs:35-42 | `replace` keeps `len` for a present row and adds one for a new row, so it never shrinks |
| FileMatches.DefaultIsNotConstructible | language_server/src/entities/file_matches.rs:24-33 | `try_new` refuses the rows of the default file state, so only the default state is empty |
| WorkspaceState.State.Default | language_server/src/entities/state.rs:5-8 | the default index has no entries |
| WorkspaceState.State.FromFileMatches | language_server/src/entities/state.rs:23-28 | the new index has exactly one entry, `k → v` |
| WorkspaceState.State.Extend | language_server/src/entities/state.rs:11-13 | the keys afterwards are the union; keys of `other` take its value; keys only in `self` are unchanged |
| WorkspaceState.State.Insert | language_server/src/entities/state.rs:15-17 | afterwards `get(k) == Some(v)` and every other key's `get` is unchanged |
| WorkspaceState.State.Replace | language_server/src/entities/state.rs:19-21 | the same new state as `insert` |
| WorkspaceState.State.Get | language_server/src/entities/state.rs:30-32 | `Some` exactly for an indexed file, with its entry |
| WorkspaceState.State.Remove | language_server/src/entities/state.rs:34-36 | afterwards `get(k)` is `None` and other keys are unchanged; removing an absent key changes nothing |
| WorkspaceState.ReplaceThenRemove | language_server/src/entities/state.rs:19-36 | `replace(k, v)` then `remove(k)` leaves no entry for `k` and no other change |
| Colorer.Pairs | language_server/src/use_cases/ports/colorer.rs:15-20 | one pair fewer than matches; pair `i` is the columns of matches `i` and `i+1` |
| Colorer.Intervals | language_server/src/use_cases/ports/colorer.rs:8-32 | on a non-empty match list and a line length of at least 1, gives one interval per match: the first starts at the first non-whitespace column; interval `i ≥ 1` starts at match `i`; interval `i < n-1` ends at match `i+1`; the last ends at `line_len - 1`; the intervals are contiguous |
| Colorer.ColorIntervals | language_server/src/use_cases/ports/colorer.rs:8-32 | the loop that extends, pushes and overwrites element 0 computes exactly `Intervals` |
| Colorer.SingleMatch | language_server/src/use_cases/ports/colorer.rs:22-31 | a single match gives `[(first_non_zero_pos, line_len - 1)]`, whatever its column |
| Colorer.ThreeMatches | language_server/src/use_cases/ports/colorer.rs:13-31 | matches at 3, 18 and 34 on an 80-long row starting at 0 give `(0,18) (18,34) (34,79)` |
| Colorer.IntervalsOrdered | language_server/src/use_cases/ports/colorer.rs:13-31 | with ascending match columns inside the line, every interval has its start at or before its end |
| Searcher.ShouldSkip | language_server/src/use_cases/ports/searcher.rs:15-26 | skipped exactly when the path has no final name or its final name is one of `.`, `..`, `node_modules`, `target`, `.git` |
| Searcher.OnlyLastComponent | language_server/src/use_cases/ports/searcher.rs:16 | `a/target/src` is not skipped; `src/target` is |
| Searcher.CaseSensitive | language_server/src/use_cases/ports/searcher.rs:19-23 | `Target` and `.github` are not skipped |
| Searcher.NoFinalName | language_server/src/use_cases/ports/searcher.rs:16-17 | the empty path, the root and a path ending in `..` are skipped |
| RipGrepGateway.FirstNonWhiteSpace | language_server/src/adapters/gateways/ripgrep.rs:21-29 | the position of the first non-whitespace character, with everything before it whitespace; the text length when there is none |
| RipGrepGateway.RipGrepSearcher.FirstNonWhiteSpacePosition | language_server/src/adapters/gateways/ripgrep.rs:21-29 | the loop with early return yields `FirstNonWhiteSpace` |
| RipGrepGateway.Lines | language_server/src/adapters/gateways/ripgrep.rs:66-69 | the lines reported to the sink are non-empty, and together they make up the text |
| RipGrepGateway.LinesEndAtNewlines | language_server/src/adapters/gateways/ripgrep.rs:66-69 | each reported line holds `\n` only as its last character, and every line but the last ends with it |
| RipGrepGateway.RowsBefore | language_server/src/adapters/gateways/ripgrep.rs:69-84 | row `L-1` is present exactly when line `L` matched; its entry is that line's length, its first non-whitespace column and its matches |
| RipGrepGateway.ScanNoneIff | language_server/src/adapters/gateways/ripgrep.rs:62-88 | a scan returns `None` exactly when no line matched |
| RipGrepGateway.ScanRows | language_server/src/adapters/gateways/ripgrep.rs:69-83 | each row is a matching line's number minus one; its metadata is the line length and first non-whitespace column; its matches come in the library's order, with `column == start` and `keyword == line[start..end]` |
| RipGrepGateway.ScanWellFormed | language_server/src/adapters/gateways/ripgrep.rs:69-88 | every file state a scan returns has a row, and every row has a match, a line length ≥ 1 and columns inside the line |
| RipGrepGateway.RipGrepSearcher.CollectMatches | language_server/src/adapters/gateways/ripgrep.rs:74-81 | the `try_find_iter` callback pushes one match per span, in order, with `column == start` and `keyword == line[start..end]` |
| RipGrepGateway.RipGrepSearcher.ScanLine | language_server/src/adapters/gateways/ripgrep.rs:71-81 | the sink's work for one line is the line's length, its first non-whitespace column and its matches |
| RipGrepGateway.RipGrepSearcher.Scan | language_server/src/adapters/gateways/ripgrep.rs:63-88 | the sink loops, over lines and then over matches, build exactly `try_new` of the specified rows |
| RipGrepGateway.RipGrepSearcher.SearchInText | language_server/src/adapters/gateways/ripgrep.rs:62-89 | the result is the scan of the text, and any file state it returns is well formed |
| RipGrepGateway.RipGrepSearcher.SearchInPath | language_server/src/adapters/gateways/ripgrep.rs:33-60 | the result is the scan of the file's text |
| RipGrepGateway.RipGrepSearcher.RecursiveSearch | language_server/src/adapters/gateways/ripgrep.rs:91-118 | returns a fresh index equal to `WalkIndex`: skipped directories are not entered, each file with matches is added under its path, and subdirectory results are merged with `extend` in walk order |
| RipGrepGateway.WalkSound | language_server/src/adapters/gateways/ripgrep.rs:91-118 | every indexed key names a file that is reached without entering a skipped directory, and its entry is that file's scan |
| RipGrepGateway.WalkComplete | language_server/src/adapters/gateways/ripgrep.rs:91-118 | every file with matches that is reached without entering a skipped directory is indexed |
| RipGrepGateway.WalkCompleteValue | language_server/src/adapters/gateways/ripgrep.rs:107-114 | a reached file with matches whose key names no other reached file is indexed under that key with its own scan |
| RipGrepGateway.WalkWellFormed | language_server/src/adapters/gateways/ripgrep.rs:91-118 | every file state in the walked index is well formed |
| RipGrepGateway.WalkSplit | language_server/src/adapters/gateways/ripgrep.rs:94-115 | the index of a listing is the index of all but its last entry, `extend`ed with what the last entry adds |
| RipGrepGateway.WalkCongruent | language_server/src/adapters/gateways/ripgrep.rs:94-115 | two listings whose entries add the same things give the same index |
| RipGrepGateway.SkippedDirectoryIgnored | language_server/src/adapters/gateways/ripgrep.rs:102-105 | the contents of a skipped directory do not affect the index |
| RipGrepGateway.JoinSplit | language_server/src/adapters/gateways/ripgrep.rs:135 | splitting the `\|`-join at `\|` gives back the keyword list, when no keyword contains `\|` |
| RipGrepGateway.TryFromRegex | language_server/src/adapters/gateways/ripgrep.rs:147-152 | `Ok` exactly when the pattern compiles; otherwise `InvalidRegex` with the library's message |
| RipGrepGateway.RipGrepSearcher.Default | language_server/src/adapters/gateways/ripgrep.rs:121-125 | the default searcher's pattern is `TODO` |
| RipGrepGateway.RipGrepSearcher.FromPattern | language_server/src/adapters/gateways/ripgrep.rs:148-151 | a searcher built from a pattern that compiles holds that pattern |
| RipGrepGateway.RipGrepSearcher.UpdateRegex | language_server/src/adapters/gateways/ripgrep.rs:128-144 | an empty list gives `InvalidRegex("Cannot empty list of keyowrds")` and no change; otherwise the `\|`-join replaces the pattern and the call returns `Ok` if the join compiles; if it does not, the call returns the compile error and the pattern is unchanged |
| ColorProviderGateway.ColorProvider.New | language_server/src/adapters/gateways/color_provider.rs:14-18 | the palette is the given map, verbatim |
| ColorProviderGateway.ColorProvider.BackgroundColors | language_server/src/adapters/gateways/color_provider.rs:22-24 | the current palette map |
| ColorProviderGateway.ColorProvider.ColorText | language_server/src/adapters/gateways/color_provider.rs:26-30 | `Some(m[k].background)` exactly when `k` is in the palette, `None` otherwise |
| ColorProviderGateway.ColorProvider.UpdatePalette | language_server/src/adapters/gateways/color_provider.rs:32-34 | inserts or overwrites `k → c`; every other keyword's colour is unchanged |
| HighlighterGateway.Highlighter.Default | language_server/src/adapters/gateways/highlighter.rs:8-11 | an empty palette, in which every lookup is `None` |
| HighlighterGateway.Highlighter.New | language_server/src/adapters/gateways/highlighter.rs:14-16 | the palette is the given map, verbatim |
| HighlighterGateway.Highlighter.ColorText | language_server/src/adapters/gateways/highlighter.rs:20-24 | `Some(m[k].background)` exactly when present, `None` otherwise |
| HighlighterGateway.Highlighter.UpdatePalette | language_server/src/adapters/gateways/highlighter.rs:26-28 | inserts or overwrites `k` only |
| HighlightController.ToColors | language_server/src/adapters/controllers/highlight.rs:40-48 | the colours' background has the settings' four channels |
| HighlightController.Converted | language_server/src/adapters/controllers/highlight.rs:38-51 | the same keywords, each mapped to its converted colours |
| HighlightController.Highlight.New | language_server/src/adapters/controllers/highlight.rs:14-18 | the controller wraps the given palette |
| HighlightController.Highlight.Colors | language_server/src/adapters/controllers/highlight.rs:22-24 | the inner palette map |
| HighlightController.Highlight.Highlight | language_server/src/adapters/controllers/highlight.rs:26-28 | exactly the inner `color_text` result, which is `Some` exactly for palette keywords |
| HighlightController.Highlight.ColorIntervals | language_server/src/adapters/controllers/highlight.rs:30-36 | exactly the port's intervals |
| HighlightController.Highlight.UpdatePalette | language_server/src/adapters/controllers/highlight.rs:38-51 | the palette afterwards is the old one merged with the converted settings: given keywords get their new colour, others keep theirs, and the loop's key order does not matter |
| HighlightController.Highlight.MergeEntries | language_server/src/adapters/controllers/highlight.rs:39-50 | the loop, taking the keys in any order, leaves the old palette overwritten by every converted settings entry |
| Config.DefaultBackground | language_server/src/adapters/config.rs:22-24 | RGBA (134, 134, 134, 255) |
| Config.ResolveUserColors | language_server/src/adapters/config.rs:9-10 | a given background is kept; a missing one is the default background |
| Config.DefaultHighlights | language_server/src/adapters/config.rs:42-44 | exactly one entry, `TODO`, with the default background |
| Config.DefaultConfig | language_server/src/adapters/config.rs:33-39 | the default configuration highlights only `TODO` |
| Config.DeserializeHighlights | language_server/src/adapters/config.rs:46-59 | a non-empty decoded map is kept, with its keys and its resolved colours; an empty one becomes the default highlights; the result is never empty |
| Config.ParseJson | language_server/src/adapters/config.rs:61-63 | a decode failure gives the default configuration; an empty map gives it too; a non-empty map keeps its keywords; the result is never empty |
| Config.ParseJsonNeverEmpty | language_server/src/adapters/config.rs:52-63 | every parsed configuration has at least one highlight |
| Config.ParseNullConfig | language_server/src/adapters/config.rs:81-95 | `null` and `{}` give exactly one highlight |
| Config.ParseEmptyConfig | language_server/src/adapters/config.rs:97-105 | `{"highlights": {}}` gives exactly one highlight, `TODO` |
| Config.ParseKeywordWithoutBackground | language_server/src/adapters/config.rs:107-121 | `{"highlights": {"TODO": {}}}` gives `TODO` the default background |
| Config.ParseKeepsGivenColours | language_server/src/adapters/config.rs:52-56 | a keyword given with a background keeps that background |
| LspController.ErrorDebug | language_server/src/adapters/controllers/lsp.rs:85-87 | the message is `InvalidRegex("`, then the reason verbatim, then `")` |
| LspController.RowItems | language_server/src/adapters/controllers/lsp.rs:197-218 | panics exactly when some keyword of the row has no colour; otherwise gives one item per match |
| LspController.RowItemsContent | language_server/src/adapters/controllers/lsp.rs:201-216 | item `i` spans `(row, iv[i].start)` to `(row, iv[i].end)` and has the background colour of `row_matches[i].keyword` |
| LspController.DocumentColorItems | language_server/src/adapters/controllers/lsp.rs:186-225 | a path with no index entry gives an empty list, not an error |
| LspController.ItemsOfRowsFirst | language_server/src/adapters/controllers/lsp.rs:195-222 | the items of a row order are the first row's items followed by those of the remaining rows; a panic in either is the result |
| LspController.ItemsCount | language_server/src/adapters/controllers/lsp.rs:193-222 | when no panic occurs, the number of items is the sum of the rows' match counts |
| LspController.ItemsPanic | language_server/src/adapters/controllers/lsp.rs:205-208 | the request panics exactly when some listed row has a keyword missing from the palette |
| LspController.ItemsAppend | language_server/src/adapters/controllers/lsp.rs:193-222 | for any per-row item computation, the items of two consecutive runs of rows are the items of each, concatenated, and a panic in either run is a panic of the whole |
| LspController.ItemsPermutation | language_server/src/adapters/controllers/lsp.rs:193-197 | for any per-row item computation, row orders that are permutations of each other give the same multiset of items, and panic alike |
| LspController.EnumerationsArePermutations | language_server/src/adapters/controllers/lsp.rs:195-197 | any two iteration orders of a row map are permutations of each other |
| LspController.DocumentColorOrderIndependent | language_server/src/adapters/controllers/lsp.rs:186-225 | for every iteration order of the rows, the request returns the same items up to order, or panics in all of them |
| LspController.DocumentColorItemsOfFile | language_server/src/adapters/controllers/lsp.rs:186-225 | for an indexed document: a panic exactly when a stored keyword has no colour; otherwise one item per match |
| LspController.KeysOf | language_server/src/adapters/controllers/lsp.rs:70 | lists every palette key exactly once |
| LspController.Backend.NewServer | language_server/src/adapters/controllers/lsp.rs:228-256 | an empty index; a searcher over the `\|`-join of the configured keywords; a palette mapping each keyword to its background colour |
| LspController.InitServer | language_server/src/infrastructure/runtime.rs:9-11 | the started server has an empty index, the pattern `TODO` and the palette `{TODO → (134,134,134,255)}`, all freshly allocated |
| LspController.StartAndInit | language_server/src/adapters/controllers/lsp.rs:79-87 | `init` on the started server leaves the palette as the default palette overwritten by the parsed settings, so `TODO` keeps a colour and is one of the keywords the pattern is rebuilt from |
| LspController.Backend.UpdateColors | language_server/src/adapters/controllers/lsp.rs:58-64 | merges the configured colours into the palette |
| LspController.Backend.UpdateRegex | language_server/src/adapters/controllers/lsp.rs:66-77 | rebuilds the searcher from all palette keys, with the outcomes of `update_regex` |
| LspController.Backend.Init | language_server/src/adapters/controllers/lsp.rs:79-109 | merges the palette first, then rebuilds the pattern from every palette key, old and new. A failed rebuild returns `invalid_params` with the error text and changes neither the pattern nor the index. A missing folder list and an empty one return their `invalid_params` messages and leave the index alone. Otherwise only folder 0 is walked and `extend`ed into the index, and the index stays well formed |
| LspController.Backend.IndexFirstFolder | language_server/src/adapters/controllers/lsp.rs:89-107 | no folder list and an empty one give their `invalid_params` messages and leave the index alone; otherwise folder 0's walk is `extend`ed into the index, which stays well formed |
| LspController.Backend.Shutdown | language_server/src/adapters/controllers/lsp.rs:154-156 | always `Ok` |
| LspController.Backend.DidChange | language_server/src/adapters/controllers/lsp.rs:158-184 | no change leaves the index alone. Otherwise only the last change's text is scanned: `Some(fs)` replaces the path's entry and `None` removes it. No other path changes, and the index stays well formed |
| LspController.Applied | language_server/src/adapters/controllers/lsp.rs:174-182 | a found scan is stored under the path and a missing one drops the path; no other path changes |
| LspController.Backend.ApplyScan | language_server/src/adapters/controllers/lsp.rs:174-182 | the index afterwards is `Applied` to the old one, and stays well formed |
| LspController.Backend.DocumentColor | language_server/src/adapters/controllers/lsp.rs:186-225 | the request is `DocumentColorItems` over the index and the palette; a path with no index entry gives an empty list |

## Left out

- Text is a sequence of characters, and one character stands for one unit
  everywhere. The server mixes units:
  - `first_non_white_space_position` counts characters but falls back to the
    byte length;
  - match columns and `line_len` are byte offsets.

  On non-ASCII lines these disagree, and the model does not capture that.
- `usize` is an unbounded `nat`, so the overflow of `line_len - 1` is not
  modelled. `Intervals` demands `line_len ≥ 1` instead. Every scanned line
  contains at least its first character, so the scanner's rows always meet
  that demand.
- The regex library is an `Engine` value:
  - compiling is `syntaxError`;
  - `try_find_iter` is `findAll`;
  - its spans are assumed to lie inside the line, and the line selection is
    assumed to agree with `findAll` (see `RipGrepGateway.RowsBefore` below).

  Regex syntax and matching themselves are not modelled.
- The grep searcher's line splitting is modelled as splitting after each `\n`,
  keeping the terminator.
- RipGrepGateway.RowsBefore: assumes that the searcher reports a line to the
  sink exactly when `findAll` finds a span in it. In the server these are two
  separate library computations (`search_slice`/`search_path` choose the
  line, `try_find_iter` finds the matches). If they disagreed, the server
  would store a row with an empty match list, and `document_color` would then
  panic at the `expect` of the colorer for that row. The model cannot produce
  such a row. So that panic path is not modelled, and the guarantees
  `RipGrepGateway.ScanWellFormed` and `LspController.Backend.Valid` give
  (every row has a match) rest on this assumption.
- Two kinds of input are not modelled, and the sink stopping on them is not
  modelled either:
  - binary-file detection;
  - non-UTF-8 input.
- The file system is an `Entry` tree. `File` carries the file's text. `Other`
  stands for entries that are neither readable files nor directories, and for
  entries the walk fails to read.
- Four file-system details are not modelled:
  - symbolic links;
  - paths that `to_str` cannot render;
  - the trailing-slash form of the root;
  - the order in which the operating system lists a directory.

  The listing order is simply the sequence order.
- The URI of a workspace folder is given as its path's components.
- Decoding JSON and hex colours in `config.rs` is done by `serde`, `serde_json`
  and `hex_color`, and is not modelled. `ParseJson` starts from the decoded
  value, with `None` for any failure. An absent `initialization_options` is
  `null`, which is such a failure.
- The hex-string test at `config.rs:73-79` is not modelled.
- `RipGrepSearcher::try_from_key_words`, called by `new_server`, is not part of
  this model: its source is not available. `Backend.NewServer` takes it to be
  `try_from_regex` of the `|`-join of the keywords, whose `expect` would panic
  if it failed to compile. That case is its precondition.
- `ErrorDebug` does not model Rust's `Debug` escaping of quotes and control
  characters inside the reason.
- `FileState::replace` mutates in place in the source. `FileMatches.FileState.Replace`
  is a function returning the new value, since a `FileState` is only ever
  owned by one index entry.
- `Arc<RwLock<…>>`, `async`, and the client's `log_message` calls are not
  modelled. The backend is a sequential object.
- `initialize`'s capability record and `initialized` are constant protocol
  data and logging, and are not modelled.
- The presenters (`presenters/color.rs` divides into `f32`, `presenters/position.rs`
  casts with `as u32`) are not modelled. `ColorInformation` carries the model's
  `Position` and `Color` instead.
- The forwarding wrappers `use_cases/highlight.rs`, `use_cases/search.rs` and
  `controllers/search.rs` are not modelled. The backend uses the searcher and
  the palette directly.
- `Highlighter`, like the source, has no `background_colors` accessor. The
  backend uses `ColorProvider`.
