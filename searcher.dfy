/**
 * Paths and the directory deny-list of the `Searcher` port
 * (use_cases/ports/searcher.rs).
 */
module Searcher {
  import opened Wrappers

  /** One component of a path, as Rust's `Path::components` yields them. */
  datatype Component = RootDir | CurDir | ParentDir | Normal(name: string)

  /** A path as the sequence of its components. */
  type Path = seq<Component>

  /** The directory names the walk never enters. */
  const DenyList: seq<string> := [".", "..", "node_modules", "target", ".git"]

  /** Rust's `Path::file_name`: the last component when it is a normal name. */
  function FileName(path: Path): Option<string> {
    if |path| == 0 then None
    else match path[|path| - 1]
      case Normal(name) => Some(name)
      case _ => None
  }

  /** `Searcher::should_skip`: a path without a final name is skipped, and so is
      one whose final name is exactly one of the deny-listed names. */
  predicate ShouldSkip(path: Path)
    ensures ShouldSkip(path) <==>
      (|path| == 0 || !path[|path| - 1].Normal? || path[|path| - 1].name in DenyList)
  {
    match FileName(path)
    case None => true
    case Some(name) =>
      name == "." || name == ".." || name == "node_modules" || name == "target" || name == ".git"
  }

  /** The path as text, components separated by `/` (what `Path::to_str` shows). */
  function Display(path: Path): string {
    if |path| == 0 then ""
    else
      var prefix := path[..|path| - 1];
      var separator := if |prefix| == 0 || prefix[|prefix| - 1] == RootDir then "" else "/";
      Display(prefix) + separator + ComponentText(path[|path| - 1])
  }

  function ComponentText(c: Component): string {
    match c
    case RootDir => "/"
    case CurDir => "."
    case ParentDir => ".."
    case Normal(name) => name
  }

  /** Only the last component is examined: `a/target/src` is not skipped. */
  lemma OnlyLastComponent()
    ensures !ShouldSkip([Normal("a"), Normal("target"), Normal("src")])
    ensures ShouldSkip([Normal("src"), Normal("target")])
  {
  }

  /** The comparison is exact and case-sensitive. */
  lemma CaseSensitive()
    ensures !ShouldSkip([Normal("Target")])
    ensures !ShouldSkip([Normal(".github")])
  {
  }

  /** The root, the empty path and a path ending in `..` have no final name and are skipped. */
  lemma NoFinalName()
    ensures ShouldSkip([]) && ShouldSkip([RootDir]) && ShouldSkip([Normal("a"), ParentDir])
  {
  }
}
