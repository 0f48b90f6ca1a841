/**
 * The null backend (Corp104\Cache\DummyCache): it keeps nothing, checks no
 * argument and never throws. Every read misses, every write reports failure,
 * every removal reports success.
 */
module DummyBackend {
  import opened Values
  import opened CacheData

  function Get(key: Value, default: Value): Value
  {
    default
  }

  function Set(key: Value, value: Value, ttl: Value): bool
  {
    false
  }

  function Delete(key: Value): bool
  {
    true
  }

  function Clear(): bool
  {
    true
  }

  function SetMultiple(values: Value, ttl: Value): bool
  {
    false
  }

  function DeleteMultiple(keys: Value): bool
  {
    true
  }

  function Has(key: Value): bool
  {
    false
  }

  /**
   * The pairs a generator that yields `$key => $default` for each of `ks`
   * produces, in order. Generator keys may be any value, so they are not
   * converted to array offsets.
   */
  function Yield(ks: seq<Value>, default: Value): (r: seq<(Value, Value)>)
    ensures |r| == |ks|
    ensures forall i :: 0 <= i < |ks| ==> r[i] == (ks[i], default)
  {
    if ks == [] then [] else [(ks[0], default)] + Yield(ks[1..], default)
  }

  /**
   * getMultiple: a generator over the keys, each paired with the default. A
   * value that is not iterable yields nothing (PHP only warns about it).
   */
  function GetMultiple(keys: Value, default: Value): (r: seq<(Value, Value)>)
    ensures |r| == |Items(keys)|
    ensures forall i :: 0 <= i < |r| ==> r[i].0 == Items(keys)[i] && r[i].1 == default
  {
    Yield(Items(keys), default)
  }

  /**
   * Writes report failure and removals success; whatever was written before,
   * a read misses: `get` answers the default and `has` answers false, for any
   * key, including ones the other backends reject.
   */
  lemma NothingIsKept(key: Value, value: Value, ttl: Value, default: Value)
    ensures !Set(key, value, ttl) && !SetMultiple(value, ttl)
    ensures Delete(key) && Clear() && DeleteMultiple(value)
    ensures Get(key, default) == default && !Has(key)
  {
  }

  /**
   * For string keys the null backend reads like an array cache that holds
   * nothing: each key gets what `get` on an empty snapshot answers, in the
   * order of the keys.
   */
  lemma {:induction false} ReadsLikeEmptyCache(keys: Value, default: Value, now: int)
    requires AllStrings(Items(keys))
    requires forall i, j :: 0 <= i < j < |Items(keys)| ==> Items(keys)[i] != Items(keys)[j]
    ensures |GetMultiple(keys, default)| == |Collect(Items(keys), map[], default, now)|
    ensures forall i :: 0 <= i < |GetMultiple(keys, default)| ==>
              && Collect(Items(keys), map[], default, now)[i].0 == StrKey(GetMultiple(keys, default)[i].0.s)
              && Collect(Items(keys), map[], default, now)[i].1 == GetMultiple(keys, default)[i].1
    ensures forall k: Value :: k.Str? ==> Get(k, default) == Read(map[], k.s, default, now)
  {
    CollectInOrder(Items(keys), map[], default, now);
  }
}
