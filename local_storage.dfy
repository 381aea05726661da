/** The best-effort storage helpers: each one calls the `Storage` interface
    inside a try block and turns every exception into a sentinel result
    (`false`, null, `[]` or 0), so that no helper ever throws. */
module LocalStorage {
  import opened Js
  import opened WebStorage

  /** What `getFromLocalStorage` makes of what `getItem` returned: null for a
      missing item and for the empty string (the `!item` guard), null when
      parsing throws, and the parsed value otherwise. */
  function Decode<T>(json: JsonCodec<T>, item: Option<string>): (r: Option<T>)
    ensures r.Some? <==> item.Some? && item.value != "" && json.parse(item.value).Ok?
    ensures r.Some? ==> json.parse(item.value) == Ok(r.value)
  {
    if item.None? || item.value == "" then None
    else match json.parse(item.value)
      case Ok(v) => Some(v)
      case Err(_) => None
  }

  /** `saveToLocalStorage(key, data)`: true exactly when serializing and
      `setItem` both complete. A failed save, whether serialization threw,
      access was refused or the quota was exceeded, returns false and leaves
      the store as it was. */
  method SaveToLocalStorage<T>(store: Storage, key: string, data: T, json: JsonCodec<T>) returns (saved: bool)
    requires store.Valid()
    modifies store
    ensures store.Valid()
    ensures saved <==> json.stringify(data).Ok? && store.accessible
                       && Size(Put(old(store.entries), key, json.stringify(data).value)) <= store.quota
    ensures store.entries == if saved then Put(old(store.entries), key, json.stringify(data).value) else old(store.entries)
  {
    var serialized := json.stringify(data);
    if serialized.Err? {
      return false;
    }
    var written := store.SetItem(key, serialized.value);
    if written.Threw? {
      if written.exception.Name() == "QuotaExceededError" {
        return false;
      }
      return false;
    }
    saved := true;
  }

  /** `getFromLocalStorage(key)`: null when access is refused, the key is
      missing, its value is the empty string or does not parse; otherwise the
      parsed value. */
  method GetFromLocalStorage<T>(store: Storage, key: string, json: JsonCodec<T>) returns (r: Option<T>)
    ensures r.Some? <==> store.accessible && Lookup(store.entries, key).Some? && Lookup(store.entries, key).value != ""
                         && json.parse(Lookup(store.entries, key).value).Ok?
    ensures r.Some? ==> json.parse(Lookup(store.entries, key).value) == Ok(r.value)
    ensures r == if store.accessible then Decode(json, Lookup(store.entries, key)) else None
  {
    var item := store.GetItem(key);
    if item.Threw? {
      return None;
    }
    if item.value.None? || item.value.value == "" {
      return None;
    }
    var parsed := json.parse(item.value.value);
    if parsed.Err? {
      return None;
    }
    r := Some(parsed.value);
  }

  /** `removeFromLocalStorage(key)`: true unless `removeItem` throws; after
      it the key is absent and every other key keeps its value. */
  method RemoveFromLocalStorage(store: Storage, key: string) returns (removed: bool)
    requires store.Valid()
    modifies store
    ensures store.Valid()
    ensures removed == store.accessible
    ensures store.entries == if removed then Delete(old(store.entries), key) else old(store.entries)
    ensures removed ==> Lookup(store.entries, key) == None
    ensures removed ==> forall other :: other != key ==> Lookup(store.entries, other) == Lookup(old(store.entries), other)
  {
    var done := store.RemoveItem(key);
    if done.Threw? {
      return false;
    }
    removed := true;
    forall other ensures Lookup(store.entries, other) == if other == key then None else Lookup(old(store.entries), other) {
      LookupDelete(old(store.entries), key, other);
    }
  }

  /** `clearLocalStorage()`: true unless `clear` throws; after it the store
      is empty. */
  method ClearLocalStorage(store: Storage) returns (cleared: bool)
    requires store.Valid()
    modifies store
    ensures store.Valid()
    ensures cleared == store.accessible
    ensures store.entries == if cleared then [] else old(store.entries)
  {
    var done := store.Clear();
    if done.Threw? {
      return false;
    }
    cleared := true;
  }

  /** `hasLocalStorageItem(key)`: true exactly when `getItem` returns a
      string, the empty string included; false when access is refused. */
  method HasLocalStorageItem(store: Storage, key: string) returns (present: bool)
    ensures present <==> store.accessible && key in Keys(store.entries)
  {
    var item := store.GetItem(key);
    if item.Threw? {
      return false;
    }
    LookupIffKey(store.entries, key);
    if item.value != None {
      return true;
    }
    return false;
  }

  /** `getAllLocalStorageKeys()`: the keys at indexes 0 to `length` - 1, in
      that order, re-reading `length` before each step; `[]` when access is
      refused. */
  method GetAllLocalStorageKeys(store: Storage) returns (keys: seq<string>)
    ensures keys == if store.accessible then Keys(store.entries) else []
  {
    keys := [];
    var i := 0;
    var length := store.Length();
    while length.Normal? && i < length.value
      invariant length == if store.accessible then Normal(|store.entries|) else Threw(SecurityError)
      invariant i <= |store.entries|
      invariant keys == Keys(store.entries)[..i]
      decreases |store.entries| - i
    {
      var key := store.Key(i);
      if key.Threw? {
        return [];
      }
      if key.value != None {
        keys := keys + [key.value.value];
      }
      i := i + 1;
      length := store.Length();
    }
    if length.Threw? {
      return [];
    }
  }

  /** `getLocalStorageSize()`: the sum of key length plus value length over
      all entries, read by index; 0 when access is refused. */
  method GetLocalStorageSize(store: Storage) returns (total: int)
    requires store.Valid()
    ensures total == if store.accessible then Size(store.entries) else 0
  {
    total := 0;
    var i := 0;
    var length := store.Length();
    while length.Normal? && i < length.value
      invariant length == if store.accessible then Normal(|store.entries|) else Threw(SecurityError)
      invariant i <= |store.entries|
      invariant total == Size(store.entries[..i])
      decreases |store.entries| - i
    {
      var key := store.Key(i);
      if key.Threw? {
        return 0;
      }
      if key.value != None {
        var value := store.GetItem(key.value.value);
        if value.Threw? {
          return 0;
        }
        LookupAt(store.entries, i);
        if value.value != None {
          total := total + |key.value.value| + |value.value.value|;
        }
      }
      assert store.entries[..i + 1] == store.entries[..i] + [store.entries[i]];
      SizeAppend(store.entries[..i], [store.entries[i]]);
      i := i + 1;
      length := store.Length();
    }
    if length.Threw? {
      return 0;
    }
    assert store.entries[..i] == store.entries;
  }

  /** A saved value reads back: once `stringify` produced `text` and it was
      stored under `key`, decoding the item of `key` gives the value again
      (for a JSON library with the usual round trip). */
  lemma SaveThenGet<T(!new)>(entries: seq<Entry>, key: string, data: T, json: JsonCodec<T>)
    requires Lawful(json)
    requires json.stringify(data).Ok?
    ensures Decode(json, Lookup(Put(entries, key, json.stringify(data).value), key)) == Some(data)
  {
    LookupPut(entries, key, json.stringify(data).value, key);
  }

  /** A stored empty string is present for `hasLocalStorageItem` but absent
      for `getFromLocalStorage`, whatever the parser. */
  lemma EmptyItemPresentButNotLoaded<T>(entries: seq<Entry>, key: string, json: JsonCodec<T>)
    requires Lookup(entries, key) == Some("")
    ensures key in Keys(entries)
    ensures Decode(json, Lookup(entries, key)) == None
  {
    LookupIffKey(entries, key);
  }

  /** The keys listed after saving under "a" and then "b" include both. */
  lemma SavedKeysAreListed(entries: seq<Entry>, a: string, textA: string, b: string, textB: string)
    ensures a in Keys(Put(Put(entries, a, textA), b, textB))
    ensures b in Keys(Put(Put(entries, a, textA), b, textB))
  {
    LookupPut(entries, a, textA, a);
    LookupPut(Put(entries, a, textA), b, textB, a);
    LookupPut(Put(entries, a, textA), b, textB, b);
    LookupIffKey(Put(Put(entries, a, textA), b, textB), a);
    LookupIffKey(Put(Put(entries, a, textA), b, textB), b);
  }

  /** Saving, reading back, asking for presence and removing, one after the
      other on the same store: a successful save reads back as the value and
      is present, and after a successful remove it is no longer present. */
  method SaveGetRemove<T(!new)>(store: Storage, key: string, data: T, json: JsonCodec<T>)
    returns (saved: bool, loaded: Option<T>, before: bool, removed: bool, after: bool)
    requires store.Valid() && Lawful(json)
    modifies store
    ensures saved ==> loaded == Some(data) && before
    ensures removed == store.accessible && (removed ==> !after)
  {
    saved := SaveToLocalStorage(store, key, data, json);
    loaded := GetFromLocalStorage(store, key, json);
    if saved {
      SaveThenGet(old(store.entries), key, data, json);
      LookupPut(old(store.entries), key, json.stringify(data).value, key);
    }
    before := HasLocalStorageItem(store, key);
    if saved {
      LookupIffKey(store.entries, key);
    }
    removed := RemoveFromLocalStorage(store, key);
    after := HasLocalStorageItem(store, key);
    LookupIffKey(store.entries, key);
  }
}
