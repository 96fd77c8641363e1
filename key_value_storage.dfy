/**
 * The fail-silent wrapper `storage` over the platform's asynchronous
 * key-value store (reference/expo-reference/lib/storage.ts).
 *
 * The platform store is the map `items` from keys to stored texts. Whether
 * the platform call underneath an operation throws is not decided here: each
 * operation takes it as the parameter `fault`. No operation surfaces a fault
 * to its caller; `Get` degrades to null and the others leave `items` alone
 * and append their diagnostic to `errorLog` (the `console.error` channel).
 */
module KeyValueStorage {
  import opened Wrappers
  import opened JsonCodec

  const SaveError := "Error saving to storage"
  const RemoveError := "Error removing from storage"
  const ClearError := "Error clearing storage"

  /**
   * What `get` returns for a stored text when the platform read succeeds:
   * a missing key and (being falsy) an empty text read as null, a text that
   * does not parse reads as null, anything else as the value it encodes.
   * JavaScript's null is `JNull`, so a stored "null" is indistinguishable
   * from a miss, as in the original.
   */
  function ReadItem(stored: Option<string>): (v: Json)
    ensures stored.None? ==> v == JNull
    ensures stored == Some("") ==> v == JNull
    ensures stored.Some? && stored.value != "" && Decode(stored.value).None? ==> v == JNull
    ensures stored.Some? && Decode(stored.value).Some? ==> v == Decode(stored.value).value
  {
    match stored
    case None => JNull
    case Some(text) =>
      if text == "" then JNull
      else match Decode(text)
        case None => JNull
        case Some(v) => v
  }

  /** Reading back the text that `set` writes for `v` gives `v`. */
  lemma ReadWritten(v: Json)
    ensures ReadItem(Some(Encode(v))) == v
  {
    RoundTrip(v);
  }

  class Storage {
    /** The platform store's contents. */
    var items: map<string, string>
    /** Diagnostics written to the console, oldest first. */
    var errorLog: seq<string>

    constructor ()
      ensures items == map[] && errorLog == []
    {
      items := map[];
      errorLog := [];
    }

    /** What a successful `get(key)` returns in the current state. */
    function Lookup(key: string): Json
      reads this
    {
      ReadItem(if key in items then Some(items[key]) else None)
    }

    /** `storage.get`: never throws; a failing platform read gives null. */
    method Get(key: string, fault: bool) returns (v: Json)
      ensures fault ==> v == JNull
      ensures !fault && key !in items ==> v == JNull
      ensures !fault && key in items ==> v == ReadItem(Some(items[key]))
    {
      if fault {
        v := JNull;
      } else {
        var stored := if key in items then Some(items[key]) else None;
        v := ReadItem(stored);
      }
    }

    /** `storage.set`: stores the encoding of `value`, or logs the failure. */
    method Set(key: string, value: Json, fault: bool)
      modifies this
      ensures fault ==> items == old(items) && errorLog == old(errorLog) + [SaveError]
      ensures !fault ==> items == old(items)[key := Encode(value)] && errorLog == old(errorLog)
      ensures !fault ==> Lookup(key) == value
      ensures forall k :: k != key ==> Lookup(k) == old(Lookup(k))
    {
      if fault {
        errorLog := errorLog + [SaveError];
      } else {
        items := items[key := Encode(value)];
        ReadWritten(value);
      }
    }

    /** `storage.remove`: deletes `key`, or logs the failure. */
    method Remove(key: string, fault: bool)
      modifies this
      ensures fault ==> items == old(items) && errorLog == old(errorLog) + [RemoveError]
      ensures !fault ==> items == old(items) - {key} && errorLog == old(errorLog)
      ensures !fault ==> Lookup(key) == JNull
      ensures forall k :: k != key ==> Lookup(k) == old(Lookup(k))
    {
      if fault {
        errorLog := errorLog + [RemoveError];
      } else {
        items := items - {key};
      }
    }

    /** `storage.clear`: deletes every key, or logs the failure. */
    method Clear(fault: bool)
      modifies this
      ensures fault ==> items == old(items) && errorLog == old(errorLog) + [ClearError]
      ensures !fault ==> items == map[] && errorLog == old(errorLog)
      ensures !fault ==> forall k :: Lookup(k) == JNull
    {
      if fault {
        errorLog := errorLog + [ClearError];
      } else {
        items := map[];
      }
    }
  }

  /** What callers can conclude from the contracts alone. */
  method StorageClient(v: Json, w: Json)
  {
    var s := new Storage();
    s.Set("a", v, false);
    s.Set("b", w, true);
    var got := s.Get("a", false);
    assert got == v;
    got := s.Get("b", false);
    assert got == JNull;
    s.Remove("a", false);
    got := s.Get("a", false);
    assert got == JNull;
    assert s.errorLog == [SaveError];
  }
}
