/** The list building of `writeKeyToFile`: in key-set mode the keys already
    in the output file, followed by the new key; otherwise the new key alone.
    Reading and writing the file are left to the caller: `StoredKeySet` is
    what `File.exists` and `JWKSet.load` report. */
module KeySetFile {
  import opened Wrappers
  import opened Jose
  import opened Validation

  /** The growing key list (`new ArrayList<>(existingKeys)` and `add`). */
  class KeyList<K> {
    var items: seq<K>

    constructor (existing: seq<K>)
      ensures items == existing
    {
      items := existing;
    }

    method Add(k: K)
      modifies this
      ensures items == old(items) + [k]
    {
      items := items + [k];
    }
  }

  /** What is found at the output path before it is written. */
  datatype StoredKeySet = Missing | Stored(keys: seq<Jwk>) | Corrupt | Unreadable

  /** A JSON document the launcher renders: one key, or a key set `{"keys": [...]}`. */
  datatype Document = KeyDoc(key: Jwk) | SetDoc(keys: seq<Jwk>)

  /** The keys already in the output file, if it could be loaded. */
  function ExistingKeys(stored: StoredKeySet): Result<seq<Jwk>, Error> {
    match stored
    case Missing => Success([])
    case Stored(keys) => Success(keys)
    case Corrupt => Failure(CorruptKeySet)
    case Unreadable => Failure(UnreadableKeySet)
  }

  /** The number of keys in `keys` whose kid is `kid`. */
  function CountKid(keys: seq<Jwk>, kid: Option<string>): nat {
    if keys == [] then 0
    else CountKid(keys[..|keys| - 1], kid) + (if keys[|keys| - 1].kid == kid then 1 else 0)
  }

  /** The document `writeKeyToFile` writes. In key-set mode it is the loaded
      keys, unchanged and in order, followed by the new key; the file is not
      written at all when it exists but cannot be loaded. */
  method WriteKeyToFile(keySet: bool, jwk: Jwk, stored: StoredKeySet) returns (r: Result<Document, Error>)
    ensures !keySet ==> r == Success(KeyDoc(jwk))
    ensures keySet && ExistingKeys(stored).Failure? ==> r == Failure(ExistingKeys(stored).error)
    ensures keySet && ExistingKeys(stored).Success? ==>
              var old_keys := ExistingKeys(stored).value;
              r.Success? && r.value.SetDoc? &&
              |r.value.keys| == |old_keys| + 1 &&
              r.value.keys[..|old_keys|] == old_keys &&
              r.value.keys[|old_keys|] == jwk &&
              multiset(r.value.keys) == multiset(old_keys) + multiset{jwk}
  {
    if keySet {
      var existingKeys: seq<Jwk>;
      match stored {
        case Missing => existingKeys := [];
        case Stored(keys) => existingKeys := keys;
        case Corrupt => return Failure(CorruptKeySet);
        case Unreadable => return Failure(UnreadableKeySet);
      }
      var jwkList := new KeyList(existingKeys);
      jwkList.Add(jwk);
      r := Success(SetDoc(jwkList.items));
    } else {
      r := Success(KeyDoc(jwk));
    }
  }

  /** Merging never deduplicates: per kid, a merged set holds as many keys
      as its two parts together, so repeated kids all survive. */
  lemma {:induction false} MergeKeepsDuplicateKids(keys: seq<Jwk>, more: seq<Jwk>, kid: Option<string>)
    ensures CountKid(keys + more, kid) == CountKid(keys, kid) + CountKid(more, kid)
    decreases |more|
  {
    if more == [] {
      assert keys + more == keys;
    } else {
      var init, last := more[..|more| - 1], more[|more| - 1];
      assert (keys + more)[..|keys + more| - 1] == keys + init;
      MergeKeepsDuplicateKids(keys, init, kid);
    }
  }
}
