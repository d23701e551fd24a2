/**
 * A JavaScript `Map`: keys are enumerated in the order of their first insertion,
 * and overwriting a key keeps its place.
 */
module InsertionMap {
  import opened Sequences

  datatype Dict<K(==), V> = Dict(keys: seq<K>, at: map<K, V>) {

    ghost predicate Valid() {
      && Distinct(keys)
      && (forall i :: 0 <= i < |keys| ==> keys[i] in at)
      && (forall k :: k in at ==> k in keys)
    }

    predicate Has(k: K) { k in at }

    function GetOr(k: K, default: V): V {
      if k in at then at[k] else default
    }

    function Set(k: K, v: V): Dict<K, V> {
      if k in at then Dict(keys, at[k := v]) else Dict(keys + [k], at[k := v])
    }
  }

  function Empty<K(==), V>(): Dict<K, V> { Dict([], map[]) }

  lemma SetKeepsValid<K, V>(d: Dict<K, V>, k: K, v: V)
    requires d.Valid()
    ensures d.Set(k, v).Valid()
  {
  }

  /** The sum of the values at `keys`, a missing key counting as zero. */
  function SumOver<K>(keys: seq<K>, at: map<K, int>): int {
    if keys == [] then 0
    else
      var k := keys[|keys| - 1];
      SumOver(keys[..|keys| - 1], at) + if k in at then at[k] else 0
  }

  function Total<K>(d: Dict<K, int>): int { SumOver(d.keys, d.at) }

  /** Setting one key moves the sum by the change at that key, if it is summed at all. */
  lemma {:induction false} SumOverUpdate<K>(keys: seq<K>, at: map<K, int>, k: K, v: int)
    requires Distinct(keys)
    ensures SumOver(keys, at[k := v]) ==
            SumOver(keys, at) + if k in keys then v - (if k in at then at[k] else 0) else 0
  {
    if keys != [] {
      var front, last := keys[..|keys| - 1], keys[|keys| - 1];
      SumOverUpdate(front, at, k, v);
      assert keys == front + [last];
    }
  }

  /** Setting one key moves the total by the change at that key. */
  lemma SetMovesTotal<K>(d: Dict<K, int>, k: K, v: int)
    requires d.Valid()
    ensures Total(d.Set(k, v)) == Total(d) - d.GetOr(k, 0) + v
  {
    SumOverUpdate(d.keys, d.at, k, v);
    if k !in d.at {
      assert (d.keys + [k])[..|d.keys|] == d.keys;
    }
  }

  /** `m.set(k, (m.get(k) ?? 0n) + v)`. */
  function Add<K>(d: Dict<K, int>, k: K, v: int): Dict<K, int> {
    d.Set(k, d.GetOr(k, 0) + v)
  }

  lemma AddMovesTotal<K>(d: Dict<K, int>, k: K, v: int)
    requires d.Valid()
    ensures Total(Add(d, k, v)) == Total(d) + v
  {
    SetMovesTotal(d, k, d.GetOr(k, 0) + v);
  }

  lemma AddKeeps<K>(d: Dict<K, int>, k: K, v: int)
    requires d.Valid()
    ensures Add(d, k, v).Valid()
    ensures Total(Add(d, k, v)) == Total(d) + v
  {
    AddMovesTotal(d, k, v);
    SetKeepsValid(d, k, d.GetOr(k, 0) + v);
  }

  lemma AddLookup<K>(d: Dict<K, int>, k: K, v: int, other: K)
    ensures Add(d, k, v).GetOr(other, 0) == d.GetOr(other, 0) + if other == k then v else 0
    ensures Add(d, k, v).Has(other) <==> d.Has(other) || other == k
  {
  }
}
