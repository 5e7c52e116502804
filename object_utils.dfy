/**
 * `excludeFields` from src/lib/objectUtils.ts: copy a record, then delete
 * each listed key from the copy. A record is a finite map from key to value;
 * maps are values here, so the caller's record can never be changed by the
 * copy (the source gets the same effect by spreading `obj` into a new object).
 */
module ObjectUtils {

  /** The reference meaning: `obj` restricted to the keys not listed in `fields`. */
  function Without<K, V>(obj: map<K, V>, fields: seq<K>): map<K, V>
  {
    map k | k in obj && k !in fields :: obj[k]
  }

  /** The source's algorithm: start from a copy, delete the listed keys one by one. */
  method ExcludeFields<K, V>(obj: map<K, V>, fields: seq<K>) returns (result: map<K, V>)
    ensures forall k :: k in fields ==> k !in result
    ensures forall k :: k in obj && k !in fields ==> k in result && result[k] == obj[k]
    ensures forall k :: k in result ==> k in obj
    ensures result == Without(obj, fields)
  {
    result := obj;
    for i := 0 to |fields|
      invariant forall k :: k in result <==> k in obj && k !in fields[..i]
      invariant forall k :: k in result ==> result[k] == obj[k]
    {
      result := result - {fields[i]};
    }
    assert fields[..|fields|] == fields;
  }

  /** An empty exclusion list yields a copy equal to the input. */
  lemma WithoutNothing<K, V>(obj: map<K, V>)
    ensures Without(obj, []) == obj
  {
  }

  /** Only the SET of listed keys matters: order and repetition have no effect. */
  lemma WithoutDependsOnlyOnKeySet<K, V>(obj: map<K, V>, f: seq<K>, g: seq<K>)
    requires forall k :: k in f <==> k in g
    ensures Without(obj, f) == Without(obj, g)
  {
  }

  /** Listing a key that is absent from the record has no effect. */
  lemma WithoutAbsentKey<K, V>(obj: map<K, V>, f: seq<K>, k: K)
    requires k !in obj
    ensures Without(obj, f + [k]) == Without(obj, f)
  {
  }

  /** Listing a key twice has no extra effect. */
  lemma WithoutRepeatedKey<K, V>(obj: map<K, V>, f: seq<K>, k: K)
    requires k in f
    ensures Without(obj, f + [k]) == Without(obj, f)
  {
  }

  /** Excluding twice with the same list is the same as excluding once. */
  lemma WithoutIdempotent<K, V>(obj: map<K, V>, f: seq<K>)
    ensures Without(Without(obj, f), f) == Without(obj, f)
  {
  }

  /** Two exclusions in a row are one exclusion of both lists. */
  lemma WithoutComposes<K, V>(obj: map<K, V>, f: seq<K>, g: seq<K>)
    ensures Without(Without(obj, f), g) == Without(obj, f + g)
  {
  }
}
