/**
 * The in-memory backend (Corp104\Cache\ArrayCache): the same operations as
 * the file backend over a process-local `$data` array, with nothing persisted.
 * Expiry is looked at by `get` only; expired entries stay in `$data`.
 */
module ArrayBackend {
  import opened Values
  import opened Helper
  import opened CacheData

  /** How many pairs at the front of `es` have string keys (setMultiple stops at the first that has not). */
  function LeadingStringKeys(es: seq<(ArrKey, Value)>): (n: nat)
    ensures n <= |es|
    ensures forall i :: 0 <= i < n ==> es[i].0.StrKey?
    ensures n < |es| ==> es[n].0.IntKey?
  {
    if es == [] || es[0].0.IntKey? then 0 else 1 + LeadingStringKeys(es[1..])
  }

  /** The array keys of the leading string values of `ks`; deleteMultiple stops at the first value that is not a string. */
  function StringPrefix(ks: seq<Value>): (r: seq<ArrKey>)
    ensures |r| <= |ks|
    ensures forall i :: 0 <= i < |r| ==> ks[i].Str? && r[i] == StrKey(ks[i].s)
    ensures |r| < |ks| ==> !ks[|r|].Str?
  {
    if ks == [] || !ks[0].Str? then [] else [StrKey(ks[0].s)] + StringPrefix(ks[1..])
  }

  class ArrayCache {
    var data: Snapshot

    constructor ()
      ensures data == map[]
    {
      data := map[];
    }

    /** get: the live value stored under `key`, or the default; a key that is not a string raises. */
    method Get(key: Value, default: Value, now: int) returns (r: Result<Value>)
      ensures !key.Str? ==> r == Err(InvalidKey)
      ensures key.Str? ==> r == Ok(Read(data, key.s, default, now))
    {
      if !CheckStringType(key) {
        return Err(InvalidKey);
      }
      if StrKey(key.s) !in data {
        return Ok(default);
      }
      var item := data[StrKey(key.s)];
      if item.expireAt.Some? && now >= item.expireAt.value {
        return Ok(default);
      }
      r := Ok(item.value);
    }

    /** set: store any value under a string key with the ttl's expiry; always answers true. */
    method Set(key: Value, value: Value, ttl: Value, now: int) returns (r: Result<bool>)
      modifies this
      ensures !key.Str? ==> r == Err(InvalidKey) && data == old(data)
      ensures key.Str? && !CheckTtlType(ttl) ==> r == Err(InvalidTtl) && data == old(data)
      ensures key.Str? && CheckTtlType(ttl) ==>
                r == Ok(true) && data == old(data)[StrKey(key.s) := Entry(value, NormalizeExpireAt(ttl, now).value)]
    {
      if !CheckStringType(key) {
        return Err(InvalidKey);
      }
      var expireAt := NormalizeExpireAt(ttl, now);
      if expireAt.Err? {
        return Err(expireAt.error);
      }
      data := data[StrKey(key.s) := Entry(value, expireAt.value)];
      r := Ok(true);
    }

    /** delete: drop the key, present or not, and answer true. */
    method Delete(key: Value) returns (r: Result<bool>)
      modifies this
      ensures !key.Str? ==> r == Err(InvalidKey) && data == old(data)
      ensures key.Str? ==> r == Ok(true) && data == old(data) - {StrKey(key.s)}
    {
      if !CheckStringType(key) {
        return Err(InvalidKey);
      }
      data := data - {StrKey(key.s)};
      r := Ok(true);
    }

    /** clear: forget everything and answer true. */
    method Clear() returns (r: bool)
      modifies this
      ensures r && data == map[]
    {
      data := map[];
      r := true;
    }

    /** getMultiple: `$ret[$key] = get($key, $default)` for each key in turn. */
    method GetMultiple(keys: Value, default: Value, now: int) returns (r: Result<seq<(ArrKey, Value)>>)
      ensures !CheckTraversableType(keys) ==> r == Err(NotTraversable)
      ensures CheckTraversableType(keys) && !AllStrings(Items(keys)) ==> r == Err(InvalidKey)
      ensures CheckTraversableType(keys) && AllStrings(Items(keys)) ==>
                r == Ok(Collect(Items(keys), data, default, now))
    {
      if !CheckTraversableType(keys) {
        return Err(NotTraversable);
      }
      var ks := Items(keys);
      var ret := [];
      var i := 0;
      while i < |ks|
        invariant 0 <= i <= |ks|
        invariant AllStrings(ks[..i])
        invariant ret == Collect(ks[..i], data, default, now)
      {
        var got := Get(ks[i], default, now);
        if got.Err? {
          return Err(got.error);
        }
        assert ks[..i + 1][..i] == ks[..i];
        ret := ArrSet(ret, StrKey(ks[i].s), got.value);
        i := i + 1;
      }
      assert ks[..i] == ks;
      r := Ok(ret);
    }

    /**
     * setMultiple: set() for each pair in turn. The first pair whose key is not a
     * string raises, leaving the pairs before it stored; an invalid ttl raises
     * at the first pair.
     */
    method SetMultiple(values: Value, ttl: Value, now: int) returns (r: Result<bool>)
      modifies this
      ensures !CheckTraversableType(values) ==> r == Err(NotTraversable) && data == old(data)
      ensures CheckTraversableType(values) && CheckTtlType(ttl) ==>
                var es := Pairs(values);
                var n := LeadingStringKeys(es);
                && data == StoreAll(old(data), es[..n], NormalizeExpireAt(ttl, now).value)
                && r == if n == |es| then Ok(true) else Err(InvalidKey)
      ensures CheckTraversableType(values) && !CheckTtlType(ttl) ==>
                var es := Pairs(values);
                && data == old(data)
                && r == if es == [] then Ok(true) else if es[0].0.IntKey? then Err(InvalidKey) else Err(InvalidTtl)
    {
      if !CheckTraversableType(values) {
        return Err(NotTraversable);
      }
      var es := Pairs(values);
      ghost var n := LeadingStringKeys(es);
      var i := 0;
      while i < |es|
        invariant 0 <= i <= n
        invariant i > 0 ==> CheckTtlType(ttl)
        invariant i > 0 ==> data == StoreAll(old(data), es[..i], NormalizeExpireAt(ttl, now).value)
        invariant i == 0 ==> data == old(data)
      {
        var stored := Set(KeyValue(es[i].0), es[i].1, ttl, now);
        if stored.Err? {
          assert i == n || !CheckTtlType(ttl);
          return Err(stored.error);
        }
        assert es[..i + 1][..i] == es[..i];
        i := i + 1;
      }
      assert es[..i] == es;
      r := Ok(true);
    }

    /**
     * deleteMultiple: delete() for each key in turn. The first key that is not a
     * string raises, leaving the keys before it deleted.
     */
    method DeleteMultiple(keys: Value) returns (r: Result<bool>)
      modifies this
      ensures !CheckTraversableType(keys) ==> r == Err(NotTraversable) && data == old(data)
      ensures CheckTraversableType(keys) ==>
                && data == RemoveAll(old(data), StringPrefix(Items(keys)))
                && r == if |StringPrefix(Items(keys))| == |Items(keys)| then Ok(true) else Err(InvalidKey)
    {
      if !CheckTraversableType(keys) {
        return Err(NotTraversable);
      }
      var deleted := DeleteEach(Items(keys));
      if deleted.Fail? {
        return Err(deleted.error);
      }
      r := Ok(true);
    }

    /** The foreach of deleteMultiple: delete() each key in turn, stopping at the first that raises. */
    method DeleteEach(ks: seq<Value>) returns (r: Outcome)
      modifies this
      ensures data == RemoveAll(old(data), StringPrefix(ks))
      ensures r == if |StringPrefix(ks)| < |ks| then Fail(InvalidKey) else Pass
    {
      ghost var removed := StringPrefix(ks);
      var i := 0;
      while i < |ks|
        invariant 0 <= i <= |removed|
        invariant data == RemoveAll(old(data), removed[..i])
      {
        var deleted := Delete(ks[i]);
        if deleted.Err? {
          assert removed[..i] == removed;
          return Fail(deleted.error);
        }
        assert removed[..i + 1][..i] == removed[..i];
        i := i + 1;
      }
      assert removed[..i] == removed;
      r := Pass;
    }

    /** has: whether the key is in `$data` at all, expired or not. */
    method Has(key: Value) returns (r: Result<bool>)
      ensures !key.Str? ==> r == Err(InvalidKey)
      ensures key.Str? ==> r == Ok(StrKey(key.s) in data)
    {
      if !CheckStringType(key) {
        return Err(InvalidKey);
      }
      r := Ok(StrKey(key.s) in data);
    }
  }

  /** A value set with an integer ttl is read back before `setAt + ttl` and missed from then on. */
  method GetAfterSet(key: string, value: Value, ttl: int, setAt: int, readAt: int, default: Value)
    returns (stored: Result<bool>, got: Result<Value>)
    ensures stored == Ok(true)
    ensures got == Ok(if readAt >= setAt + ttl then default else value)
  {
    var cache := new ArrayCache();
    stored := cache.Set(Str(key), value, Int(ttl), setAt);
    got := cache.Get(Str(key), default, readAt);
  }

  /** setMultiple of an array with string keys, then getMultiple of its keys, gives the array back. */
  method SetMultipleThenGetMultiple(items: seq<(ArrKey, Value)>, default: Value, now: int)
    returns (stored: Result<bool>, got: Result<seq<(ArrKey, Value)>>)
    requires DistinctKeys(items)
    requires forall i :: 0 <= i < |items| ==> items[i].0.StrKey?
    ensures stored == Ok(true)
    ensures got == Ok(items)
  {
    var cache := new ArrayCache();
    stored := cache.SetMultiple(Arr(items), Null, now);
    assert items[..|items|] == items;
    var keys := seq(|items|, i requires 0 <= i < |items| => (IntKey(i), KeyValue(items[i].0)));
    assert Items(Arr(keys)) == seq(|items|, i requires 0 <= i < |items| => KeyValue(items[i].0));
    SetThenGetMultiple(map[], items, default, now);
    got := cache.GetMultiple(Arr(keys), default, now);
  }
}
