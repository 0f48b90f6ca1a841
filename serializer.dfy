/**
 * PHP's serialize()/unserialize(), which the file backend applies to every
 * stored value, at the level of the grammar's symbols: `N;`, `b:1;`, `i:5;`,
 * `d:…;`, `s:5:"value";`, `a:2:{…}`, `O:…:{…}`. A container announces how many
 * key/value pairs follow, so the symbol string is self-delimiting. The text
 * spelling of each symbol is not modelled.
 */
module Serializer {
  import opened Values

  datatype Sym =
    | SNull
    | SBool(b: bool)
    | SInt(i: int)
    | SFloat(bits: int)
    | SStr(s: string)
    | SKey(k: ArrKey)                  // a key inside a container
    | SArr(count: nat)                 // a:count:{ … }
    | STraversable(id: nat, count: nat) // an object whose state is a list of pairs
    | SInterval(days: int, hours: int, minutes: int, seconds: int, micros: int)
    | SObj(id: nat)

  type Bytes = seq<Sym>

  /** serialize($value). A resource has no serialized form: PHP writes it as the integer 0. */
  function Serialize(v: Value): Bytes
    decreases v, 1
  {
    match v
    case Null => [SNull]
    case Bool(b) => [SBool(b)]
    case Int(i) => [SInt(i)]
    case Float(f) => [SFloat(f)]
    case Str(s) => [SStr(s)]
    case Arr(es) => [SArr(|es|)] + SerializePairs(v, 0)
    case Iterable(id, es) => [STraversable(id, |es|)] + SerializePairs(v, 0)
    case Interval(d, h, m, s, f) => [SInterval(d, h, m, s, f)]
    case Obj(id) => [SObj(id)]
    case Resource(_) => [SInt(0)]
  }

  /** The serialization of the pairs of container `v` from position `i` on. */
  function SerializePairs(v: Value, i: nat): Bytes
    requires v.Arr? || v.Iterable?
    requires i <= |v.entries|
    decreases v, 0, |v.entries| - i
  {
    if i == |v.entries| then []
    else
      assert v.entries[i] in v.entries;
      [SKey(v.entries[i].0)] + Serialize(v.entries[i].1) + SerializePairs(v, i + 1)
  }

  /** Reads one value off the front of `s`; what it did not consume is returned with it. */
  function Parse(s: Bytes): (r: Option<(Value, Bytes)>)
    decreases |s|, 0
    ensures r.Some? ==> |r.value.1| < |s|
  {
    if |s| == 0 then None
    else match s[0]
      case SNull => Some((Null, s[1..]))
      case SBool(b) => Some((Bool(b), s[1..]))
      case SInt(i) => Some((Int(i), s[1..]))
      case SFloat(f) => Some((Float(f), s[1..]))
      case SStr(str) => Some((Str(str), s[1..]))
      case SInterval(d, h, m, sec, f) => Some((Interval(d, h, m, sec, f), s[1..]))
      case SObj(id) => Some((Obj(id), s[1..]))
      case SArr(n) =>
        (match ParsePairs(s[1..], n)
         case None => None
         case Some((es, rest)) => Some((Arr(es), rest)))
      case STraversable(id, n) =>
        (match ParsePairs(s[1..], n)
         case None => None
         case Some((es, rest)) => Some((Iterable(id, es), rest)))
      case SKey(_) => None
  }

  /** Reads `n` key/value pairs off the front of `s`. */
  function ParsePairs(s: Bytes, n: nat): (r: Option<(seq<(ArrKey, Value)>, Bytes)>)
    decreases |s|, 1
    ensures r.Some? ==> |r.value.1| <= |s| && |r.value.0| == n
  {
    if n == 0 then Some(([], s))
    else if |s| == 0 || !s[0].SKey? then None
    else match Parse(s[1..])
      case None => None
      case Some((v, rest)) =>
        match ParsePairs(rest, n - 1)
        case None => None
        case Some((es, rest')) => Some(([(s[0].k, v)] + es, rest'))
  }

  /**
   * unserialize($bytes): the first serialized value in the bytes, or false
   * when they do not start with one. Anything after a complete value is
   * ignored (PHP 8.3 warns about it but still answers the value).
   */
  function Unserialize(s: Bytes): Value
  {
    match Parse(s)
    case Some((v, _)) => v
    case None => Bool(false)
  }

  /** What a value reads back as after a serialize/unserialize round trip: resources become 0. */
  function Portable(v: Value): Value
    decreases v, 1
  {
    match v
    case Arr(es) => Arr(PortablePairs(v, 0))
    case Iterable(id, es) => Iterable(id, PortablePairs(v, 0))
    case Resource(_) => Int(0)
    case _ => v
  }

  function PortablePairs(v: Value, i: nat): seq<(ArrKey, Value)>
    requires v.Arr? || v.Iterable?
    requires i <= |v.entries|
    decreases v, 0, |v.entries| - i
  {
    if i == |v.entries| then []
    else
      assert v.entries[i] in v.entries;
      [(v.entries[i].0, Portable(v.entries[i].1))] + PortablePairs(v, i + 1)
  }

  /** Parsing the serialization of `v`, followed by anything, yields `v`'s portable form and the rest untouched. */
  lemma {:induction false} ParseSerialize(v: Value, rest: Bytes)
    ensures Parse(Serialize(v) + rest) == Some((Portable(v), rest))
    decreases v, 1
  {
    if v.Arr? || v.Iterable? {
      assert (Serialize(v) + rest)[1..] == SerializePairs(v, 0) + rest;
      ParseSerializePairs(v, 0, rest);
    } else {
      assert (Serialize(v) + rest)[1..] == rest;
    }
  }

  lemma {:induction false} ParseSerializePairs(v: Value, i: nat, rest: Bytes)
    requires v.Arr? || v.Iterable?
    requires i <= |v.entries|
    ensures ParsePairs(SerializePairs(v, i) + rest, |v.entries| - i) == Some((PortablePairs(v, i), rest))
    decreases v, 0, |v.entries| - i
  {
    if i < |v.entries| {
      var e := v.entries[i];
      assert e in v.entries;
      var tail := SerializePairs(v, i + 1) + rest;
      var s := SerializePairs(v, i) + rest;
      assert s == [SKey(e.0)] + (Serialize(e.1) + tail);
      assert s[1..] == Serialize(e.1) + tail;
      assert s[0] == SKey(e.0);
      ParseSerialize(e.1, tail);
      ParseSerializePairs(v, i + 1, rest);
      assert PortablePairs(v, i) == [(e.0, Portable(e.1))] + PortablePairs(v, i + 1);
      var n := |v.entries| - i;
      assert Parse(s[1..]) == Some((Portable(e.1), tail));
      assert ParsePairs(tail, n - 1) == Some((PortablePairs(v, i + 1), rest));
    } else {
      assert SerializePairs(v, i) + rest == rest;
    }
  }

  /** unserialize(serialize($v)) gives back `v` with its resources replaced by 0. */
  lemma RoundTrip(v: Value)
    ensures Unserialize(Serialize(v)) == Portable(v)
  {
    ParseSerialize(v, []);
    assert Serialize(v) + [] == Serialize(v);
  }

  /** Whatever follows a serialized value, unserialize answers that value and ignores the rest. */
  lemma TrailingDataIgnored(v: Value, rest: Bytes)
    ensures Unserialize(Serialize(v) + rest) == Portable(v)
  {
    ParseSerialize(v, rest);
  }
}
