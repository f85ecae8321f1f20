/**
 * Ruby's Hash as the gateway uses it for options and request parameters:
 * entries kept in insertion order, one per key, `[]` answering nil for an
 * absent key, `[]=` replacing a value in place or appending a new entry.
 * `encode` emits the entries in exactly this order.
 */
module OrderedHashes {
  import opened RubyValues

  type Entries = seq<(string, Value)>

  function Keys(e: Entries): (ks: seq<string>)
    ensures |ks| == |e|
    ensures forall i :: 0 <= i < |e| ==> ks[i] == e[i].0
  {
    if |e| == 0 then [] else [e[0].0] + Keys(e[1..])
  }

  ghost predicate DistinctKeys(e: Entries) {
    forall i, j :: 0 <= i < j < |e| ==> e[i].0 != e[j].0
  }

  /** `hash[key]`: the value stored under `key`, or nil. */
  function Lookup(e: Entries, key: string): Value {
    if |e| == 0 then NilValue
    else if e[0].0 == key then e[0].1
    else Lookup(e[1..], key)
  }

  /** `hash.has_key?(key)`. */
  predicate HasKey(e: Entries, key: string) {
    key in Keys(e)
  }

  /** `hash[key] = value`: the entry for `key` keeps its place, a new key goes last. */
  function Store(e: Entries, key: string, value: Value): Entries {
    if |e| == 0 then [(key, value)]
    else if e[0].0 == key then [(key, value)] + e[1..]
    else [e[0]] + Store(e[1..], key, value)
  }

  lemma {:induction false} LookupAbsent(e: Entries, key: string)
    requires !HasKey(e, key)
    ensures Lookup(e, key) == NilValue
  {
    if |e| > 0 {
      assert Keys(e) == [e[0].0] + Keys(e[1..]);
      LookupAbsent(e[1..], key);
    }
  }

  /** The first entry carrying a key is the one `[]` reads. */
  lemma {:induction false} LookupFirst(e: Entries, i: int)
    requires 0 <= i < |e|
    requires forall j :: 0 <= j < i ==> e[j].0 != e[i].0
    ensures Lookup(e, e[i].0) == e[i].1
  {
    if i > 0 {
      LookupFirst(e[1..], i - 1);
    }
  }

  /** Storing then reading the same key gives the stored value; other keys are untouched. */
  lemma {:induction false} LookupStore(e: Entries, key: string, value: Value, other: string)
    ensures Lookup(Store(e, key, value), key) == value
    ensures other != key ==> Lookup(Store(e, key, value), other) == Lookup(e, other)
  {
    if |e| > 0 && e[0].0 != key {
      LookupStore(e[1..], key, value, other);
    }
  }

  /** A stored key that was new goes to the end; an existing one keeps its position. */
  lemma {:induction false} KeysStore(e: Entries, key: string, value: Value)
    ensures Keys(Store(e, key, value)) == if HasKey(e, key) then Keys(e) else Keys(e) + [key]
  {
    if |e| > 0 {
      assert Keys(e) == [e[0].0] + Keys(e[1..]);
      if e[0].0 != key {
        KeysStore(e[1..], key, value);
        assert Keys(Store(e, key, value)) == [e[0].0] + Keys(Store(e[1..], key, value));
      } else {
        assert Keys(Store(e, key, value)) == [key] + Keys(e[1..]);
      }
    }
  }

  /** On a key not yet present, storing appends. */
  lemma {:induction false} StoreNew(e: Entries, key: string, value: Value)
    requires forall i :: 0 <= i < |e| ==> e[i].0 != key
    ensures Store(e, key, value) == e + [(key, value)]
  {
    if |e| > 0 {
      StoreNew(e[1..], key, value);
      assert e == [e[0]] + e[1..];
    }
  }

  /** On a key already present, storing overwrites that entry where it stands. */
  lemma {:induction false} StoreExisting(e: Entries, i: int, value: Value)
    requires DistinctKeys(e) && 0 <= i < |e|
    ensures Store(e, e[i].0, value) == e[i := (e[i].0, value)]
  {
    if i > 0 {
      StoreExisting(e[1..], i - 1, value);
      assert e[1..][i - 1 := (e[i].0, value)] == e[i := (e[i].0, value)][1..];
    }
  }

  lemma StoreKeepsDistinct(e: Entries, key: string, value: Value)
    requires DistinctKeys(e)
    ensures DistinctKeys(Store(e, key, value))
  {
    KeysStore(e, key, value);
    var s := Store(e, key, value);
    forall i, j | 0 <= i < j < |s|
      ensures s[i].0 != s[j].0
    {
      assert Keys(s)[i] == s[i].0 && Keys(s)[j] == s[j].0;
      if !HasKey(e, key) {
        assert Keys(e) + [key] == Keys(s);
        if j == |e| {
          assert Keys(e)[i] == e[i].0;
        } else {
          assert Keys(e)[i] == e[i].0 && Keys(e)[j] == e[j].0;
        }
      } else {
        assert Keys(e)[i] == e[i].0 && Keys(e)[j] == e[j].0;
      }
    }
  }

  /**
   * `pick(hash, *keys)`: a new hash holding, in the order of `keys`, each
   * key whose value in `hash` is truthy, with that value.
   */
  function Pick(hash: Entries, keys: seq<string>): Entries
    decreases |keys|
  {
    if |keys| == 0 then []
    else
      var acc := Pick(hash, keys[..|keys| - 1]);
      var key := keys[|keys| - 1];
      if Truthy(Lookup(hash, key)) then Store(acc, key, Lookup(hash, key)) else acc
  }

  /** A picked key reads its value from the source hash; everything else reads nil. */
  lemma {:induction false} LookupPick(hash: Entries, keys: seq<string>, key: string)
    ensures Lookup(Pick(hash, keys), key) ==
      if key in keys && Truthy(Lookup(hash, key)) then Lookup(hash, key) else NilValue
    decreases |keys|
  {
    if |keys| == 0 {
    } else {
      var init := keys[..|keys| - 1];
      var last := keys[|keys| - 1];
      assert keys == init + [last];
      LookupPick(hash, init, key);
      if Truthy(Lookup(hash, last)) {
        LookupStore(Pick(hash, init), last, Lookup(hash, last), key);
      }
    }
  }

  /** Every key of a pick was asked for, and appears once. */
  lemma {:induction false} PickKeys(hash: Entries, keys: seq<string>)
    ensures forall k :: k in Keys(Pick(hash, keys)) ==> k in keys
    ensures DistinctKeys(Pick(hash, keys))
    decreases |keys|
  {
    if |keys| > 0 {
      var init := keys[..|keys| - 1];
      var last := keys[|keys| - 1];
      assert keys == init + [last];
      PickKeys(hash, init);
      if Truthy(Lookup(hash, last)) {
        KeysStore(Pick(hash, init), last, Lookup(hash, last));
        StoreKeepsDistinct(Pick(hash, init), last, Lookup(hash, last));
      }
    }
  }

  /** A Ruby Hash object, which methods of the gateway update in place. */
  class OrderedHash {
    var entries: Entries

    ghost predicate Valid()
      reads this
    {
      DistinctKeys(entries)
    }

    constructor ()
      ensures Valid() && entries == []
    {
      entries := [];
    }

    function Get(key: string): Value
      reads this
    {
      Lookup(entries, key)
    }

    predicate Has(key: string)
      reads this
    {
      HasKey(entries, key)
    }

    /** `hash[key] = value`. */
    method Put(key: string, value: Value)
      requires Valid()
      modifies this
      ensures Valid()
      ensures entries == Store(old(entries), key, value)
      ensures Get(key) == value
      ensures forall k :: k != key ==> Get(k) == old(Get(k))
    {
      StoreKeepsDistinct(entries, key, value);
      forall k | true
        ensures Lookup(Store(entries, key, value), key) == value
        ensures k != key ==> Lookup(Store(entries, key, value), k) == Lookup(entries, k)
      {
        LookupStore(entries, key, value, k);
      }
      entries := Store(entries, key, value);
    }
  }
}
