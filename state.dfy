/** The workspace index (entities/state.rs): file path to that file's matches. */
module WorkspaceState {
  import opened Wrappers
  import opened FileMatches

  class State {
    var inner: map<string, FileState>

    /** `State::default()`: no file is indexed. */
    constructor Default()
      ensures inner == map[]
    {
      inner := map[];
    }

    /** `State::from_file_matches`: exactly one entry. */
    constructor FromFileMatches(fileName: string, matches: FileState)
      ensures inner == map[fileName := matches]
      ensures inner.Keys == {fileName}
    {
      inner := map[fileName := matches];
    }

    /** `State::extend`: merge; on a shared key the entry of `other` wins. */
    method Extend(other: State)
      modifies this
      ensures inner == old(inner) + old(other.inner)
      ensures inner.Keys == old(inner.Keys) + old(other.inner.Keys)
      ensures forall k :: k in old(other.inner) ==> inner[k] == old(other.inner[k])
      ensures forall k :: k in old(inner) && k !in old(other.inner) ==> inner[k] == old(inner[k])
    {
      inner := inner + other.inner;
    }

    /** `State::insert`: the key now maps to the value; no other key changes. */
    method Insert(fileName: string, matches: FileState)
      modifies this
      ensures inner == old(inner)[fileName := matches]
      ensures Get(fileName) == Some(matches)
      ensures forall k :: k != fileName ==> Get(k) == old(Get(k))
    {
      inner := inner[fileName := matches];
    }

    /** `State::replace`: the same as `insert`. */
    method Replace(fileName: string, newMatches: FileState)
      modifies this
      ensures inner == old(inner)[fileName := newMatches]
      ensures Get(fileName) == Some(newMatches)
      ensures forall k :: k != fileName ==> Get(k) == old(Get(k))
    {
      Insert(fileName, newMatches);
    }

    /** `State::get`: the entry of a file, if any. */
    function Get(fileName: string): (r: Option<FileState>)
      reads this
      ensures r.Some? <==> fileName in inner
      ensures r.Some? ==> r.value == inner[fileName]
    {
      if fileName in inner then Some(inner[fileName]) else None
    }

    /** `State::remove`: the key is gone; no other key changes; an absent key is a no-op. */
    method Remove(fileName: string)
      modifies this
      ensures inner == old(inner) - {fileName}
      ensures Get(fileName) == None
      ensures forall k :: k != fileName ==> Get(k) == old(Get(k))
      ensures old(fileName !in inner) ==> inner == old(inner)
    {
      inner := inner - {fileName};
    }
  }

  /** A replace followed by a remove of the same path leaves no entry for it. */
  method ReplaceThenRemove(s: State, fileName: string, matches: FileState)
    modifies s
    ensures s.Get(fileName) == None
    ensures forall k :: k != fileName ==> s.Get(k) == old(s.Get(k))
  {
    s.Replace(fileName, matches);
    s.Remove(fileName);
  }
}
