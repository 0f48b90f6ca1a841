/**
 * The argument checks and the ttl normalisation that every backend calls
 * (Corp104\Cache\Util\Helper). Their behaviour is the one the helper's own
 * tests pin down; `now` stands for the wall clock, time().
 */
module Helper {
  import opened Values

  /** checkStringType: a cache key must be a string. */
  predicate CheckStringType(key: Value)
  {
    key.Str?
  }

  /** checkTraversableType: a bulk argument must be an array or a Traversable. */
  predicate CheckTraversableType(v: Value)
  {
    v.Arr? || v.Iterable?
  }

  /** checkTtlType: a ttl is null, an integer number of seconds or a DateInterval. */
  predicate CheckTtlType(ttl: Value)
  {
    ttl.Null? || ttl.Int? || ttl.Interval?
  }

  /** The length of a DateInterval in seconds; the sub-second part is dropped. */
  function IntervalSeconds(ttl: Value): int
    requires ttl.Interval?
  {
    ((ttl.days * 24 + ttl.hours) * 60 + ttl.minutes) * 60 + ttl.seconds
  }

  /** normalizeTtl: no expiry for null, the number itself for an int, whole seconds for an interval. */
  function NormalizeTtl(ttl: Value): (r: Result<Option<int>>)
    ensures r.Ok? <==> CheckTtlType(ttl)
    ensures r.Err? ==> r.error == InvalidTtl
    ensures ttl.Null? <==> r == Ok(None)
    ensures ttl.Int? ==> r == Ok(Some(ttl.i))
    ensures r.Ok? && r.value.Some? && !ttl.Int? ==> r.value.value == IntervalSeconds(ttl)
  {
    match ttl
    case Null => Ok(None)
    case Int(n) => Ok(Some(n))
    case Interval(_, _, _, _, _) => Ok(Some(IntervalSeconds(ttl)))
    case _ => Err(InvalidTtl)
  }

  /** normalizeExpireAt: the absolute expiry instant, or none when the entry never expires. */
  function NormalizeExpireAt(ttl: Value, now: int): (r: Result<Option<int>>)
    ensures r.Ok? <==> CheckTtlType(ttl)
    ensures r.Err? ==> r.error == InvalidTtl
    ensures ttl.Null? <==> r == Ok(None)
    ensures ttl.Int? ==> r == Ok(Some(now + ttl.i))
  {
    match NormalizeTtl(ttl)
    case Err(e) => Err(e)
    case Ok(None) => Ok(None)
    case Ok(Some(seconds)) => Ok(Some(now + seconds))
  }

  /** normalizeTtl and normalizeExpireAt on the valid ttls of the helper's tests: null, one hour as an int and as PT1H. */
  lemma NormalizeCases(now: int)
    ensures NormalizeTtl(Null) == Ok(None) && NormalizeExpireAt(Null, now) == Ok(None)
    ensures NormalizeTtl(Int(3600)) == Ok(Some(3600)) && NormalizeExpireAt(Int(3600), now) == Ok(Some(now + 3600))
    ensures NormalizeTtl(Interval(0, 1, 0, 0, 0)) == Ok(Some(3600))
    ensures NormalizeExpireAt(Interval(0, 1, 0, 0, 0), now) == Ok(Some(now + 3600))
  {
  }

  /** Both normalisations refuse the invalid ttls of the helper's tests: a string, a float, true, an array, an object. */
  lemma InvalidTtlCases(now: int)
    ensures NormalizeTtl(Str("string")) == Err(InvalidTtl) && NormalizeExpireAt(Str("string"), now) == Err(InvalidTtl)
    ensures NormalizeTtl(Float(0)) == Err(InvalidTtl) && NormalizeExpireAt(Float(0), now) == Err(InvalidTtl)
    ensures NormalizeTtl(Bool(true)) == Err(InvalidTtl) && NormalizeExpireAt(Bool(true), now) == Err(InvalidTtl)
    ensures NormalizeTtl(Arr([])) == Err(InvalidTtl) && NormalizeExpireAt(Arr([]), now) == Err(InvalidTtl)
    ensures NormalizeTtl(Obj(0)) == Err(InvalidTtl) && NormalizeExpireAt(Obj(0), now) == Err(InvalidTtl)
  {
  }

  /** checkStringType refuses the invalid keys of the helper's tests and accepts every string. */
  lemma StringTypeCases(s: string)
    ensures CheckStringType(Str(s))
    ensures !CheckStringType(Int(123)) && !CheckStringType(Float(0))
    ensures !CheckStringType(Bool(false)) && !CheckStringType(Bool(true))
    ensures !CheckStringType(Arr([(IntKey(0), Int(123)), (IntKey(1), Int(456))])) && !CheckStringType(Obj(0))
  {
  }

  /** checkTraversableType accepts a Traversable and an array and refuses a string. */
  lemma TraversableTypeCases(id: nat)
    ensures CheckTraversableType(Iterable(id, [])) && CheckTraversableType(Arr([]))
    ensures !CheckTraversableType(Str("test"))
  {
  }

  /** checkTtlType accepts null, an int and a DateInterval, and refuses a string, a float, false, an array and an object. */
  lemma TtlTypeCases()
    ensures CheckTtlType(Null) && CheckTtlType(Int(3600)) && CheckTtlType(Interval(0, 1, 0, 0, 0))
    ensures !CheckTtlType(Str("string")) && !CheckTtlType(Float(0)) && !CheckTtlType(Bool(false))
    ensures !CheckTtlType(Arr([])) && !CheckTtlType(Obj(0))
  {
  }
}
