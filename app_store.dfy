/**
 * The application state container `useAppStore`
 * (reference/expo-reference/lib/store.ts): a theme, a loading flag, an error
 * slot and a keyed data bag, of which the theme and the data bag are
 * persisted under the storage key "app-storage".
 *
 * Every setter of the original calls the container's `set` with a partial
 * state that is shallow-merged into the current one; here each setter is a
 * method that assigns exactly the fields that partial state names.
 */
module AppStore {
  import opened Wrappers
  import opened JsonCodec

  datatype Theme = Light | Dark | System

  /** The persisted snapshot key. */
  const StorageKey := "app-storage"

  /** A value view of the whole in-memory state. */
  datatype AppState = AppState(
    theme: Theme,
    isLoading: bool,
    error: Option<string>,
    data: map<string, Json>)

  /** The subset of the state that `partialize` selects for persistence. */
  datatype Persisted = Persisted(theme: Theme, data: map<string, Json>)

  /** The state the container is created with. */
  const Defaults := AppState(System, false, None, map[])

  /** `partialize`: the persisted snapshot of a state. */
  function Partialize(s: AppState): (p: Persisted)
    ensures p.theme == s.theme && p.data == s.data
  {
    Persisted(s.theme, s.data)
  }

  /** The loading flag and the error never reach the persisted snapshot. */
  lemma PartializeIgnoresTransient(s: AppState, loading: bool, e: Option<string>)
    ensures Partialize(s.(isLoading := loading, error := e)) == Partialize(s)
  {
  }

  /**
   * Rehydration: the snapshot found in storage, if any, shallow-merged over
   * the current state; the fields it does not hold keep their values.
   */
  function Merge(current: AppState, saved: Option<Persisted>): (s: AppState)
    ensures s.isLoading == current.isLoading && s.error == current.error
    ensures saved.None? ==> s == current
    ensures saved.Some? ==> s.theme == saved.value.theme && s.data == saved.value.data
  {
    match saved
    case None => current
    case Some(p) => current.(theme := p.theme, data := p.data)
  }

  /**
   * Persisting a state and rehydrating a fresh container from the snapshot
   * restores its theme and data; the loading flag and error come back as
   * their defaults.
   */
  lemma PersistRestore(s: AppState)
    ensures Merge(Defaults, Some(Partialize(s))) == s.(isLoading := false, error := None)
    ensures Partialize(Merge(Defaults, Some(Partialize(s)))) == Partialize(s)
  {
  }

  class Store {
    var theme: Theme
    var isLoading: bool
    var error: Option<string>
    var data: map<string, Json>

    /** The store as first created, before any snapshot is merged. */
    constructor ()
      ensures State() == Defaults
    {
      theme, isLoading, error, data := System, false, None, map[];
    }

    /** A store created from the `Persisted` snapshot found in storage under `StorageKey`, if any. */
    constructor Rehydrated(saved: Option<Persisted>)
      ensures State() == Merge(Defaults, saved)
    {
      theme, isLoading, error, data := System, false, None, map[];
      if saved.Some? {
        theme, data := saved.value.theme, saved.value.data;
      }
    }

    function State(): AppState
      reads this
    {
      AppState(theme, isLoading, error, data)
    }

    /** `partialize` of the current state: exactly the persisted fields. */
    function Snapshot(): (p: Persisted)
      reads this
      ensures p == Partialize(State())
      ensures p.theme == theme && p.data == data
    {
      Persisted(theme, data)
    }

    method SetTheme(t: Theme)
      modifies this
      ensures theme == t
      ensures isLoading == old(isLoading) && error == old(error) && data == old(data)
    {
      theme := t;
    }

    method SetIsLoading(loading: bool)
      modifies this
      ensures isLoading == loading
      ensures theme == old(theme) && error == old(error) && data == old(data)
    {
      isLoading := loading;
    }

    method SetError(e: Option<string>)
      modifies this
      ensures error == e
      ensures theme == old(theme) && isLoading == old(isLoading) && data == old(data)
    {
      error := e;
    }

    /** Idempotent: a second call finds the state it leaves. */
    method ClearError()
      modifies this
      ensures error == None
      ensures theme == old(theme) && isLoading == old(isLoading) && data == old(data)
      ensures old(error) == None ==> State() == old(State())
    {
      error := None;
    }

    /** Merges one key into the data bag; every other key keeps its value. */
    method SetData(key: string, value: Json)
      modifies this
      ensures data == old(data)[key := value]
      ensures data.Keys == old(data).Keys + {key}
      ensures GetData(key) == Some(value)
      ensures forall k :: k != key ==> GetData(k) == old(GetData(k))
      ensures theme == old(theme) && isLoading == old(isLoading) && error == old(error)
    {
      data := data[key := value];
    }

    /** `getData`: the value under `key`, or `None` (JavaScript's undefined). */
    function GetData(key: string): (r: Option<Json>)
      reads this
      ensures r.Some? <==> key in data
      ensures r.Some? ==> r.value == data[key]
    {
      if key in data then Some(data[key]) else None
    }

    method ClearData()
      modifies this
      ensures data == map[]
      ensures forall k :: GetData(k) == None
      ensures theme == old(theme) && isLoading == old(isLoading) && error == old(error)
    {
      data := map[];
    }
  }

  /** Setting a, then b, then a again. */
  method MergeExample()
  {
    var s := new Store();
    s.SetData("a", JNum(1));
    s.SetData("b", JNum(2));
    assert s.data == map["a" := JNum(1), "b" := JNum(2)];
    s.SetData("a", JNum(3));
    assert s.data == map["a" := JNum(3), "b" := JNum(2)];
    var got := s.GetData("a");
    assert got == Some(JNum(3));
    s.ClearError();
    s.ClearError();
    assert s.State() == AppState(System, false, None, map["a" := JNum(3), "b" := JNum(2)]);
  }
}
