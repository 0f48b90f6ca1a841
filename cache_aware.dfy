/**
 * The CacheAwareTrait mixin: a class that uses it holds a cache driver and a
 * ttl. The ttl starts out as `false`, meaning "not chosen yet"; the first
 * `getTtl` replaces it by the using class's `getDefaultTtl()`, while
 * `setTtl` replaces it by any valid ttl.
 */
module CacheAware {
  import opened Values
  import opened Helper
  import ArrayBackend
  import FileBackend

  /** The driver a host may hold: one of the backends of this package. */
  datatype Driver =
    | ArrayDriver(array: ArrayBackend.ArrayCache)
    | FileDriver(file: FileBackend.FileCache)
    | DummyDriver

  /** The marker the ttl holds until one is chosen. */
  const Unset: Value := Bool(false)

  /**
   * A class using the trait. `getDefaultTtl()` is the using class's own
   * method; its answer is passed to GetTtl as `defaultTtl`.
   */
  class Host {
    var cache: Option<Driver>
    var ttl: Value

    constructor ()
      ensures cache == None && ttl == Unset
    {
      cache := None;
      ttl := Unset;
    }

    /** getTtl: the chosen ttl, choosing the default the first time nothing was chosen. */
    method GetTtl(defaultTtl: Value) returns (t: Value)
      modifies this
      ensures old(ttl) == Unset ==> t == defaultTtl
      ensures old(ttl) != Unset ==> t == old(ttl)
      ensures ttl == t && cache == old(cache)
    {
      if ttl == Unset {
        ttl := defaultTtl;
      }
      t := ttl;
    }

    /** setCache: any driver, or none; the ttl is left alone. */
    method SetCache(c: Option<Driver>)
      modifies this
      ensures cache == c && ttl == old(ttl)
    {
      cache := c;
    }

    /** setTtl: a null, int or DateInterval ttl is kept; anything else raises and changes nothing. */
    method SetTtl(t: Value) returns (r: Outcome)
      modifies this
      ensures r == Pass <==> CheckTtlType(t)
      ensures r.Fail? ==> r.error == InvalidTtl && ttl == old(ttl)
      ensures r == Pass ==> ttl == t
      ensures cache == old(cache)
    {
      if !CheckTtlType(t) {
        return Fail(InvalidTtl);
      }
      ttl := t;
      r := Pass;
    }
  }

  /** A ttl accepted by setTtl is exactly what getTtl answers afterwards; the default is not consulted. */
  method SetThenGetTtl(t: Value, defaultTtl: Value) returns (r: Outcome, got: Value)
    requires CheckTtlType(t)
    ensures r == Pass && got == t
  {
    var host := new Host();
    r := host.SetTtl(t);
    got := host.GetTtl(defaultTtl);
  }

  /**
   * Without setTtl, getTtl answers the default, and keeps answering the first
   * default it saw as long as that was not `false` itself.
   */
  method DefaultIsSticky(first: Value, second: Value) returns (got1: Value, got2: Value)
    ensures got1 == first
    ensures got2 == if first == Unset then second else first
  {
    var host := new Host();
    got1 := host.GetTtl(first);
    got2 := host.GetTtl(second);
  }

  /** A rejected ttl leaves the earlier choice in place. */
  method RejectedTtlKeepsChoice(t: Value, bad: Value, defaultTtl: Value) returns (r1: Outcome, r2: Outcome, got: Value)
    requires CheckTtlType(t) && !CheckTtlType(bad)
    ensures r1 == Pass && r2 == Fail(InvalidTtl) && got == t
  {
    var host := new Host();
    r1 := host.SetTtl(t);
    r2 := host.SetTtl(bad);
    got := host.GetTtl(defaultTtl);
  }
}
