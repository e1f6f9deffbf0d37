/**
 * Dictionary helpers: `pick` extracts a sub-dictionary, `augment` was meant
 * to return an extended copy. Dictionaries are immutable `map` values here,
 * so "does not modify its argument" holds by construction: neither function
 * can change the map it is given.
 */
module PyUtils {
  import opened Python

  /**
   * `pick(d, *keys, default)`: a new dictionary whose keys are exactly `keys`,
   * each mapped to its value in `d`, or to `default` when `d` lacks it.
   */
  function Pick<K, V>(d: map<K, V>, keys: seq<K>, default: V): (r: map<K, V>)
    ensures r.Keys == set k | k in keys
    ensures forall k | k in r && k in d :: r[k] == d[k]
    ensures forall k | k in r && k !in d :: r[k] == default
  {
    map k | k in keys :: if k in d then d[k] else default
  }

  /** When every requested key is present, `pick` is the restriction of `d` to those keys. */
  lemma PickPresentIsRestriction<K, V>(d: map<K, V>, keys: seq<K>, default: V)
    requires forall k | k in keys :: k in d
    ensures Pick(d, keys, default) == map k | k in d && k in keys :: d[k]
  {
  }

  /** Picking the same keys twice changes nothing. */
  lemma {:induction false} PickIdempotent<K, V>(d: map<K, V>, keys: seq<K>, default: V)
    ensures Pick(Pick(d, keys, default), keys, default) == Pick(d, keys, default)
  {
    var once := Pick(d, keys, default);
    assert forall k | k in keys :: k in once;
  }

  /**
   * `augment` as written: `d.copy().update(values)` evaluates to the result of
   * `dict.update`, which is always `None`; the extended copy is discarded.
   */
  function AugmentAsWritten<K, V>(d: map<K, V>, values: map<K, V>): (r: Option<map<K, V>>)
    ensures r.None?
  {
    None
  }

  /** What `augment` is documented to return: a copy of `d` extended (and overridden) by `values`. */
  function Augment<K, V>(d: map<K, V>, values: map<K, V>): (r: map<K, V>)
    ensures r.Keys == d.Keys + values.Keys
    ensures forall k | k in values :: r[k] == values[k]
    ensures forall k | k in d && k !in values :: r[k] == d[k]
  {
    d + values
  }

  /** Counterexample: augmenting with a new key yields nothing instead of the extended copy. */
  lemma AugmentAsWrittenLosesValues()
    ensures AugmentAsWritten(map["country" := "PE"], map["year" := "2020"]) == None
    ensures Augment(map["country" := "PE"], map["year" := "2020"]) == map["country" := "PE", "year" := "2020"]
  {
  }

  /** The corrected `augment` keeps every original entry that `values` does not override. */
  lemma AugmentKeepsOriginal<K, V>(d: map<K, V>, values: map<K, V>)
    requires d.Keys !! values.Keys
    ensures forall k | k in d :: k in Augment(d, values) && Augment(d, values)[k] == d[k]
    ensures |Augment(d, values)| == |d| + |values|
  {
    var r := Augment(d, values);
    assert r.Keys == d.Keys + values.Keys;
  }
}
