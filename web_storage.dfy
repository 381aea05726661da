/** The `Storage` interface the storage helpers run against (`localStorage`):
    an ordered list of key/value string pairs with distinct keys, read and
    changed through `length`, `key(n)`, `getItem`, `setItem`, `removeItem`
    and `clear` (HTML Standard, section 12.2.1 "The Storage interface").

    Every call can throw: when the user agent refuses access to storage at
    all, each call throws a SecurityError, and `setItem` throws a
    QuotaExceededError when the new entries would not fit the quota. */
module WebStorage {
  import opened Js

  datatype Entry = Entry(key: string, value: string)

  /** The keys, in entry order. */
  function Keys(entries: seq<Entry>): (keys: seq<string>)
    ensures |keys| == |entries|
    ensures forall i :: 0 <= i < |entries| ==> keys[i] == entries[i].key
  {
    if entries == [] then [] else [entries[0].key] + Keys(entries[1..])
  }

  ghost predicate DistinctKeys(entries: seq<Entry>) {
    forall i, j :: 0 <= i < j < |entries| ==> entries[i].key != entries[j].key
  }

  /** `getItem(key)`: the value of the first entry with that key, or null. */
  function Lookup(entries: seq<Entry>, key: string): Option<string> {
    if entries == [] then None
    else if entries[0].key == key then Some(entries[0].value)
    else Lookup(entries[1..], key)
  }

  /** A key has a value exactly when it is one of the keys. */
  lemma {:induction false} LookupIffKey(entries: seq<Entry>, key: string)
    ensures Lookup(entries, key).Some? <==> key in Keys(entries)
  {
    if entries != [] {
      LookupIffKey(entries[1..], key);
      assert Keys(entries) == [entries[0].key] + Keys(entries[1..]);
    }
  }

  /** With distinct keys, looking up the key of an entry finds that entry. */
  lemma {:induction false} LookupAt(entries: seq<Entry>, i: nat)
    requires DistinctKeys(entries) && i < |entries|
    ensures Lookup(entries, entries[i].key) == Some(entries[i].value)
  {
    if i > 0 {
      assert entries[0].key != entries[i].key;
      assert entries[1..][i - 1] == entries[i];
      LookupAt(entries[1..], i - 1);
    }
  }

  /** `setItem(key, value)` once it is allowed: an existing entry keeps its
      place and takes the new value; a new key is appended. */
  function Put(entries: seq<Entry>, key: string, value: string): seq<Entry> {
    if entries == [] then [Entry(key, value)]
    else if entries[0].key == key then [Entry(key, value)] + entries[1..]
    else [entries[0]] + Put(entries[1..], key, value)
  }

  /** After `Put`, the key maps to the new value and every other key to what
      it mapped to before. */
  lemma {:induction false} LookupPut(entries: seq<Entry>, key: string, value: string, other: string)
    ensures Lookup(Put(entries, key, value), other) == if other == key then Some(value) else Lookup(entries, other)
  {
    if entries != [] && entries[0].key != key {
      LookupPut(entries[1..], key, value, other);
    }
  }

  /** `Put` keeps the order of the keys, appending a new key at the end, and
      so keeps them distinct. */
  lemma {:induction false} PutKeys(entries: seq<Entry>, key: string, value: string)
    ensures Keys(Put(entries, key, value)) == if key in Keys(entries) then Keys(entries) else Keys(entries) + [key]
    ensures DistinctKeys(entries) ==> DistinctKeys(Put(entries, key, value))
  {
    if entries != [] {
      assert Keys(entries) == [entries[0].key] + Keys(entries[1..]);
      if entries[0].key != key {
        PutKeys(entries[1..], key, value);
        assert Keys(Put(entries, key, value)) == [entries[0].key] + Keys(Put(entries[1..], key, value));
      } else {
        assert Keys(Put(entries, key, value)) == [key] + Keys(entries[1..]);
      }
    }
    if DistinctKeys(entries) {
      DistinctIffKeys(entries);
      DistinctIffKeys(Put(entries, key, value));
    }
  }

  /** Distinct keys in the entries are distinct elements of `Keys`. */
  lemma DistinctIffKeys(entries: seq<Entry>)
    ensures DistinctKeys(entries) <==> forall i, j :: 0 <= i < j < |Keys(entries)| ==> Keys(entries)[i] != Keys(entries)[j]
  {
    var keys := Keys(entries);
    if DistinctKeys(entries) {
      forall i, j | 0 <= i < j < |keys| ensures keys[i] != keys[j] {
        assert keys[i] == entries[i].key && keys[j] == entries[j].key;
      }
    } else {
      var i, j :| 0 <= i < j < |entries| && entries[i].key == entries[j].key;
      assert 0 <= i < j < |Keys(entries)| && Keys(entries)[i] == Keys(entries)[j];
      assert !(forall i, j :: 0 <= i < j < |Keys(entries)| ==> Keys(entries)[i] != Keys(entries)[j]);
    }
  }

  /** `removeItem(key)` once it is allowed: the entry with that key goes, the
      rest keep their order. */
  function Delete(entries: seq<Entry>, key: string): seq<Entry> {
    if entries == [] then []
    else if entries[0].key == key then entries[1..]
    else [entries[0]] + Delete(entries[1..], key)
  }

  /** With distinct keys, after `Delete` the key is absent and every other key
      maps to what it mapped to before; the keys stay distinct. */
  lemma {:induction false} LookupDelete(entries: seq<Entry>, key: string, other: string)
    requires DistinctKeys(entries)
    ensures Lookup(Delete(entries, key), other) == if other == key then None else Lookup(entries, other)
    ensures DistinctKeys(Delete(entries, key))
    ensures Size(Delete(entries, key)) <= Size(entries)
  {
    if entries != [] {
      if entries[0].key == key {
        if other == key {
          LookupIffKey(entries[1..], key);
          DistinctIffKeys(entries);
        }
      } else {
        LookupDelete(entries[1..], key, other);
        DeleteKeepsEntries(entries[1..], key);
        var rest := Delete(entries[1..], key);
        forall j | 0 <= j < |rest| ensures rest[j].key != entries[0].key {
          assert rest[j] in entries[1..];
          var m :| 0 <= m < |entries[1..]| && entries[1..][m] == rest[j];
          assert entries[m + 1] == rest[j];
        }
      }
    }
  }

  /** `Delete` keeps only entries that were there. */
  lemma {:induction false} DeleteKeepsEntries(entries: seq<Entry>, key: string)
    ensures forall e :: e in Delete(entries, key) ==> e in entries
  {
    if entries != [] && entries[0].key != key {
      DeleteKeepsEntries(entries[1..], key);
    }
  }

  /** The size of an entry: the length of its key plus that of its value. */
  function EntrySize(e: Entry): nat {
    |e.key| + |e.value|
  }

  /** The total size of the entries. */
  function Size(entries: seq<Entry>): nat {
    if entries == [] then 0 else EntrySize(entries[0]) + Size(entries[1..])
  }

  lemma {:induction false} SizeAppend(a: seq<Entry>, b: seq<Entry>)
    ensures Size(a + b) == Size(a) + Size(b)
  {
    if a == [] {
      assert a + b == b;
    } else {
      assert (a + b)[0] == a[0] && (a + b)[1..] == a[1..] + b;
      SizeAppend(a[1..], b);
    }
  }

  /** The exceptions a `Storage` call can throw. */
  datatype DomException = QuotaExceededError | SecurityError {
    function Name(): string {
      match this
      case QuotaExceededError => "QuotaExceededError"
      case SecurityError => "SecurityError"
    }
  }

  /** How a `Storage` call completes: it returns a value or throws. */
  datatype Completion<T> = Normal(value: T) | Threw(exception: DomException)

  class Storage {
    var entries: seq<Entry>
    /** False when the user agent refuses access to storage. */
    const accessible: bool
    /** The most that `Size(entries)` may reach. */
    const quota: nat

    ghost predicate Valid()
      reads this
    {
      DistinctKeys(entries) && Size(entries) <= quota
    }

    constructor (accessible: bool, quota: nat)
      ensures Valid()
      ensures entries == [] && this.accessible == accessible && this.quota == quota
    {
      entries := [];
      this.accessible := accessible;
      this.quota := quota;
    }

    /** `length`. */
    method Length() returns (r: Completion<nat>)
      ensures r == if accessible then Normal(|entries|) else Threw(SecurityError)
    {
      if !accessible {
        return Threw(SecurityError);
      }
      r := Normal(|entries|);
    }

    /** `key(n)`: the n-th key, or null past the end. */
    method Key(n: nat) returns (r: Completion<Option<string>>)
      ensures r == if !accessible then Threw(SecurityError)
                   else Normal(if n < |entries| then Some(entries[n].key) else None)
    {
      if !accessible {
        return Threw(SecurityError);
      }
      r := Normal(if n < |entries| then Some(entries[n].key) else None);
    }

    /** `getItem(key)`. */
    method GetItem(key: string) returns (r: Completion<Option<string>>)
      ensures r == if accessible then Normal(Lookup(entries, key)) else Threw(SecurityError)
    {
      if !accessible {
        return Threw(SecurityError);
      }
      r := Normal(Lookup(entries, key));
    }

    /** `setItem(key, value)`. */
    method SetItem(key: string, value: string) returns (r: Completion<()>)
      requires Valid()
      modifies this
      ensures Valid()
      ensures r == if !accessible then Threw(SecurityError)
                   else if Size(Put(old(entries), key, value)) > quota then Threw(QuotaExceededError)
                   else Normal(())
      ensures entries == if r.Normal? then Put(old(entries), key, value) else old(entries)
    {
      if !accessible {
        return Threw(SecurityError);
      }
      if Size(Put(entries, key, value)) > quota {
        return Threw(QuotaExceededError);
      }
      PutKeys(entries, key, value);
      entries := Put(entries, key, value);
      r := Normal(());
    }

    /** `removeItem(key)`. */
    method RemoveItem(key: string) returns (r: Completion<()>)
      requires Valid()
      modifies this
      ensures Valid()
      ensures r == if accessible then Normal(()) else Threw(SecurityError)
      ensures entries == if r.Normal? then Delete(old(entries), key) else old(entries)
    {
      if !accessible {
        return Threw(SecurityError);
      }
      LookupDelete(entries, key, key);
      entries := Delete(entries, key);
      r := Normal(());
    }

    /** `clear()`. */
    method Clear() returns (r: Completion<()>)
      requires Valid()
      modifies this
      ensures Valid()
      ensures r == if accessible then Normal(()) else Threw(SecurityError)
      ensures entries == if r.Normal? then [] else old(entries)
    {
      if !accessible {
        return Threw(SecurityError);
      }
      entries := [];
      r := Normal(());
    }
  }
}
