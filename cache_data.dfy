/**
 * What the array and file backends have in common: the entries they keep
 * in their `$data` map, the rule by which `get` reads an entry, and the PHP
 * arrays that `getMultiple` builds and `setMultiple`/`deleteMultiple` walk.
 */
module CacheData {
  import opened Values

  /** One stored item: the value and, unless it never expires, the absolute instant it expires at. */
  datatype Entry = Entry(value: Value, expireAt: Option<int>)

  /** The `$data` array of a backend, key to entry. */
  type Snapshot = map<ArrKey, Entry>

  /** An entry is expired once the clock has reached its expiry instant. */
  predicate Expired(e: Entry, now: int)
  {
    e.expireAt.Some? && now >= e.expireAt.value
  }

  /**
   * The outcome of `get($key, $default)` on a snapshot: the stored value
   * while the entry is live, the default when it is missing or expired.
   */
  function Read(m: Snapshot, key: string, default: Value, now: int): (r: Value)
    ensures StrKey(key) !in m ==> r == default
    ensures StrKey(key) in m && m[StrKey(key)].expireAt.None? ==> r == m[StrKey(key)].value
    ensures StrKey(key) in m && m[StrKey(key)].expireAt.Some? ==>
              r == if now >= m[StrKey(key)].expireAt.value then default else m[StrKey(key)].value
  {
    if StrKey(key) !in m then default
    else if Expired(m[StrKey(key)], now) then default
    else m[StrKey(key)].value
  }

  /** PHP's `$a[$k] = $v` on an ordered array: an existing key keeps its place, a new key goes last. */
  function ArrSet(a: seq<(ArrKey, Value)>, k: ArrKey, v: Value): seq<(ArrKey, Value)>
  {
    if a == [] then [(k, v)]
    else if a[0].0 == k then [(k, v)] + a[1..]
    else [a[0]] + ArrSet(a[1..], k, v)
  }

  predicate AllStrings(ks: seq<Value>)
  {
    forall i :: 0 <= i < |ks| ==> ks[i].Str?
  }

  /** The array `getMultiple` builds: `$ret[$key] = get($key, $default)` for each key in turn. */
  function Collect(ks: seq<Value>, m: Snapshot, default: Value, now: int): seq<(ArrKey, Value)>
    requires AllStrings(ks)
  {
    if ks == [] then []
    else
      var last := ks[|ks| - 1].s;
      ArrSet(Collect(ks[..|ks| - 1], m, default, now), StrKey(last), Read(m, last, default, now))
  }

  /** The snapshot after storing each pair in turn, all with the same expiry. */
  function StoreAll(m: Snapshot, es: seq<(ArrKey, Value)>, expireAt: Option<int>): Snapshot
  {
    if es == [] then m
    else
      var last := es[|es| - 1];
      StoreAll(m, es[..|es| - 1], expireAt)[last.0 := Entry(last.1, expireAt)]
  }

  /** The snapshot after removing each key in turn. */
  function RemoveAll(m: Snapshot, ks: seq<ArrKey>): Snapshot
  {
    if ks == [] then m else RemoveAll(m, ks[..|ks| - 1]) - {ks[|ks| - 1]}
  }

  lemma {:induction false} ArrSetNewKey(a: seq<(ArrKey, Value)>, k: ArrKey, v: Value)
    requires forall i :: 0 <= i < |a| ==> a[i].0 != k
    ensures ArrSet(a, k, v) == a + [(k, v)]
  {
    if a != [] {
      ArrSetNewKey(a[1..], k, v);
      assert [a[0]] + (a[1..] + [(k, v)]) == a + [(k, v)];
    }
  }

  /**
   * For distinct keys, `getMultiple` answers one pair per key, in the order of
   * the keys, each holding what `get` would answer for that key.
   */
  lemma {:induction false} CollectInOrder(ks: seq<Value>, m: Snapshot, default: Value, now: int)
    requires AllStrings(ks)
    requires forall i, j :: 0 <= i < j < |ks| ==> ks[i] != ks[j]
    ensures |Collect(ks, m, default, now)| == |ks|
    ensures forall i :: 0 <= i < |ks| ==>
              Collect(ks, m, default, now)[i] == (StrKey(ks[i].s), Read(m, ks[i].s, default, now))
  {
    if ks != [] {
      var init := ks[..|ks| - 1];
      var last := ks[|ks| - 1];
      CollectInOrder(init, m, default, now);
      var c := Collect(init, m, default, now);
      forall i | 0 <= i < |c| ensures c[i].0 != StrKey(last.s) {
        assert c[i].0 == StrKey(ks[i].s);
        assert ks[i] != last;
      }
      ArrSetNewKey(c, StrKey(last.s), Read(m, last.s, default, now));
    }
  }

  /**
   * After StoreAll every listed key holds the value of the last pair that
   * lists it (a Traversable may yield a key twice), so for distinct keys
   * each key holds its own pair's value; every other key is untouched.
   */
  lemma {:induction false} StoreAllLookup(m: Snapshot, es: seq<(ArrKey, Value)>, expireAt: Option<int>, k: ArrKey)
    ensures k in KeysOf(es) ==> k in StoreAll(m, es, expireAt)
    ensures k !in KeysOf(es) ==>
              (k in StoreAll(m, es, expireAt) <==> k in m) &&
              (k in m ==> StoreAll(m, es, expireAt)[k] == m[k])
    ensures forall i :: 0 <= i < |es| && es[i].0 == k && (forall j :: i < j < |es| ==> es[j].0 != k) ==>
              StoreAll(m, es, expireAt)[k] == Entry(es[i].1, expireAt)
    ensures DistinctKeys(es) ==> forall i :: 0 <= i < |es| && es[i].0 == k ==>
              StoreAll(m, es, expireAt)[k] == Entry(es[i].1, expireAt)
  {
    if es != [] {
      var init := es[..|es| - 1];
      StoreAllLookup(m, init, expireAt, k);
      assert KeysOf(es) == KeysOf(init) + [es[|es| - 1].0];
      forall i | 0 <= i < |es| - 1 && es[i].0 == k && (forall j :: i < j < |es| ==> es[j].0 != k)
        ensures StoreAll(m, es, expireAt)[k] == Entry(es[i].1, expireAt)
      {
        assert es[|es| - 1].0 != k;
        assert init[i] == es[i];
        forall j | i < j < |init| ensures init[j].0 != k {
          assert init[j] == es[j];
        }
      }
      if DistinctKeys(es) {
        assert DistinctKeys(init);
        forall i | 0 <= i < |init| && init[i].0 == k
          ensures k != es[|es| - 1].0
        {
        }
      }
    }
  }

  /** After RemoveAll exactly the listed keys are gone; the rest keep their entries. */
  lemma {:induction false} RemoveAllLookup(m: Snapshot, ks: seq<ArrKey>, k: ArrKey)
    ensures k in RemoveAll(m, ks) <==> k in m && k !in ks
    ensures k in RemoveAll(m, ks) ==> RemoveAll(m, ks)[k] == m[k]
  {
    if ks != [] {
      RemoveAllLookup(m, ks[..|ks| - 1], k);
      assert ks == ks[..|ks| - 1] + [ks[|ks| - 1]];
    }
  }

  /**
   * Storing a PHP array of string keys with no expiry and then asking for its
   * keys gives the array back exactly.
   */
  lemma SetThenGetMultiple(m: Snapshot, es: seq<(ArrKey, Value)>, default: Value, now: int)
    requires DistinctKeys(es)
    requires forall i :: 0 <= i < |es| ==> es[i].0.StrKey?
    ensures AllStrings(seq(|es|, i requires 0 <= i < |es| => KeyValue(es[i].0)))
    ensures Collect(seq(|es|, i requires 0 <= i < |es| => KeyValue(es[i].0)), StoreAll(m, es, None), default, now) == es
  {
    var ks := seq(|es|, i requires 0 <= i < |es| => KeyValue(es[i].0));
    var stored := StoreAll(m, es, None);
    forall i, j | 0 <= i < j < |ks| ensures ks[i] != ks[j] {
      assert es[i].0 != es[j].0;
    }
    CollectInOrder(ks, stored, default, now);
    var c := Collect(ks, stored, default, now);
    forall i | 0 <= i < |es| ensures c[i] == es[i] {
      StoreAllLookup(m, es, None, es[i].0);
      assert StrKey(ks[i].s) == es[i].0;
    }
  }

  /**
   * An entry stored at `setAt` with an integer ttl reads back as its value
   * strictly before `setAt + ttl` and as the default from then on; a ttl of 0
   * or below therefore misses at once.
   */
  lemma ExpiryWindow(m: Snapshot, key: string, v: Value, default: Value, ttl: int, setAt: int, now: int)
    ensures Read(m[StrKey(key) := Entry(v, Some(setAt + ttl))], key, default, now) ==
              if now >= setAt + ttl then default else v
    ensures ttl <= 0 ==> Read(m[StrKey(key) := Entry(v, Some(setAt + ttl))], key, default, setAt) == default
  {
  }
}
