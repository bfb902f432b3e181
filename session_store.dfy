/**
 * The session list of web/lib/session_store.js. localStorage holds one entry
 * under the store's key; JSON encoding is not modelled, so the entry is seen
 * through what `JSON.parse` would make of it.
 */
module SessionStore {
  import opened Wrappers

  const MAX: nat := 20

  /** What `JSON.parse` makes of the stored text (a session object survives the round trip). */
  datatype Stored<S> = EmptyText | Unparsable | NotAnArray | List(items: seq<S>)

  /** `loadSessions` on a given storage entry (`None`: the key is absent). */
  function Loaded<S>(entry: Option<Stored<S>>): (list: seq<S>)
    ensures entry.None? || !entry.value.List? ==> list == []
    ensures entry.Some? && entry.value.List? ==> list == entry.value.items
  {
    match entry
    case Some(List(items)) => items
    case _ => []
  }

  /** The list `saveSession` writes: the new session in front, cut to MAX entries. */
  function Pushed<S>(list: seq<S>, s: S): (r: seq<S>)
    ensures 1 <= |r| <= MAX && r[0] == s
    ensures |r| == if |list| + 1 <= MAX then |list| + 1 else MAX
    ensures r[1..] == list[..|r| - 1]
  {
    var withNew := [s] + list;
    if |withNew| <= MAX then withNew else withNew[..MAX]
  }

  class Store<S> {
    var entry: Option<Stored<S>>

    constructor (initial: Option<Stored<S>>)
      ensures entry == initial
    {
      entry := initial;
    }

    method LoadSessions() returns (list: seq<S>)
      ensures list == Loaded(entry)
    {
      list := Loaded(entry);
    }

    method SaveSession(s: S)
      modifies this
      ensures entry == Some(List(Pushed(Loaded(old(entry)), s)))
    {
      var list := LoadSessions();
      list := [s] + list;
      var trimmed := if |list| <= MAX then list else list[..MAX];
      entry := Some(List(trimmed));
    }

    method ClearSessions()
      modifies this
      ensures entry.None?
    {
      entry := None;
    }
  }

  /** A client: after a save the newest session is first, the list stays within MAX, and a clear empties it. */
  method SaveThenClear<S>(store: Store<S>, s: S)
    modifies store
  {
    ghost var before := Loaded(store.entry);
    store.SaveSession(s);
    var list := store.LoadSessions();
    assert list[0] == s && |list| <= MAX;
    assert list[1..] == before[..|list| - 1];
    store.ClearSessions();
    list := store.LoadSessions();
    assert list == [];
  }
}
