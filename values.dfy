/**
 * PHP values as the cache sees them: the keys of a PHP array, the "mixed"
 * values callers pass in, and the error and result wrappers shared by every
 * backend. Every error variant but IllegalOffset stands for an
 * InvalidArgumentException raised by one particular check.
 */
module Values {

  datatype Option<+T> = None | Some(value: T)

  /** A PHP array key: arrays are keyed by integers or strings. */
  datatype ArrKey = IntKey(i: int) | StrKey(s: string)

  /**
   * A PHP value. Float payloads are opaque (no arithmetic is modelled on them);
   * Iterable is an object implementing Traversable, seen through the key/value
   * pairs it yields; Interval is a DateInterval without its calendar fields;
   * Obj is any other object, never looked into; Resource is the one kind of
   * value that is neither null, scalar, array nor object.
   */
  datatype Value =
    | Null
    | Bool(b: bool)
    | Int(i: int)
    | Float(bits: int)
    | Str(s: string)
    | Arr(entries: seq<(ArrKey, Value)>)
    | Iterable(id: nat, entries: seq<(ArrKey, Value)>)
    | Interval(days: int, hours: int, minutes: int, seconds: int, micros: int)
    | Obj(id: nat)
    | Resource(id: nat)

  /** Which check failed: an InvalidArgumentException, or PHP's own refusal of an array offset. */
  datatype Error =
    | InvalidKey        // a cache key that is not a string
    | InvalidValue      // a value with a leaf that cannot be stored
    | InvalidTtl        // a ttl that is not null, int or DateInterval
    | NotTraversable    // a bulk argument that is neither array nor Traversable
    | IllegalOffset     // a value PHP cannot use as an array offset (a TypeError in PHP 8)
    | NotPhpFile        // a cache file name without the .php suffix
    | DirNotWritable    // the cache file's directory is not writable
    | FileNotWritable   // the cache file exists and is not writable

  datatype Result<+T> = Ok(value: T) | Err(error: Error)

  /** The outcome of a check that returns nothing or throws. */
  datatype Outcome = Pass | Fail(error: Error)

  /** The value a PHP array key reads back as, e.g. in a foreach over array_keys(). */
  function KeyValue(k: ArrKey): (v: Value)
    ensures v.Int? || v.Str?
  {
    match k
    case IntKey(i) => Int(i)
    case StrKey(s) => Str(s)
  }

  /** The key/value pairs a foreach over `v` visits; nothing for a non-iterable value. */
  function Pairs(v: Value): seq<(ArrKey, Value)>
  {
    match v
    case Arr(es) => es
    case Iterable(_, es) => es
    case _ => []
  }

  /** The values a foreach over `v` visits, in order. */
  function Items(v: Value): (r: seq<Value>)
    ensures |r| == |Pairs(v)|
    ensures forall i :: 0 <= i < |r| ==> r[i] == Pairs(v)[i].1
  {
    seq(|Pairs(v)|, i requires 0 <= i < |Pairs(v)| => Pairs(v)[i].1)
  }

  /** The keys of a list of pairs, in order. */
  function KeysOf(es: seq<(ArrKey, Value)>): (r: seq<ArrKey>)
    ensures |r| == |es|
    ensures forall i :: 0 <= i < |r| ==> r[i] == es[i].0
  {
    seq(|es|, i requires 0 <= i < |es| => es[i].0)
  }

  /** No key occurs twice (always so for a PHP array). */
  predicate DistinctKeys(es: seq<(ArrKey, Value)>)
  {
    forall i, j :: 0 <= i < j < |es| ==> es[i].0 != es[j].0
  }

  /**
   * PHP's conversion of a value used as an array offset (`$a[$key]`):
   * strings and integers are kept, booleans become 0 or 1, null becomes "",
   * a resource becomes its integer id (with a warning); arrays and objects
   * are refused.
   */
  function ToArrKey(v: Value): (r: Result<ArrKey>)
    ensures v.Str? ==> r == Ok(StrKey(v.s))
    ensures v.Int? ==> r == Ok(IntKey(v.i))
    ensures v.Resource? ==> r == Ok(IntKey(v.id))
    ensures r.Err? <==> v.Arr? || v.Iterable? || v.Interval? || v.Obj? || v.Float?
  {
    match v
    case Str(s) => Ok(StrKey(s))
    case Int(i) => Ok(IntKey(i))
    case Bool(b) => Ok(IntKey(if b then 1 else 0))
    case Null => Ok(StrKey(""))
    case Resource(id) => Ok(IntKey(id))
    case _ => Err(IllegalOffset)
  }

  /**
   * The offsets of the leading keys that PHP can use as array offsets, converted;
   * it stops at the first key that is not.
   */
  function OffsetPrefix(ks: seq<Value>): (r: seq<ArrKey>)
    ensures |r| <= |ks|
    ensures forall i :: 0 <= i < |r| ==> ToArrKey(ks[i]) == Ok(r[i])
    ensures |r| < |ks| ==> ToArrKey(ks[|r|]).Err?
  {
    if ks == [] then []
    else match ToArrKey(ks[0])
      case Err(_) => []
      case Ok(k) => [k] + OffsetPrefix(ks[1..])
  }
}
