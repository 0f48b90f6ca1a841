/**
 * The file-persisted backend (Corp104\Cache\FileCache). An instance keeps an
 * in-memory snapshot `data` and serves every read from it; every mutation
 * rewrites the whole cache file, and a failed write replaces the snapshot by
 * what the file holds. The file is a PHP script returning an array of
 * `{expire, data}` items whose `data` is the serialized value.
 *
 * The file system is a CacheFile object, which several FileCache instances
 * may share; whether a write or an unlink succeeds is passed in by the
 * caller, and so is the clock (`now`).
 */
module FileBackend {
  import opened Values
  import opened Helper
  import opened Serializer
  import opened CacheData

  /** One item of the cache file: the expiry and the serialized value. */
  datatype Stored = Stored(expire: Option<int>, data: Bytes)

  /** What `require $file` returns: the exported array of items. */
  type FileContents = map<ArrKey, Stored>

  /*
   * checkValueType
   */

  /**
   * checkValueType($value): arrays and Traversables are searched item by item;
   * any other leaf must be null, a scalar or an object. False means it throws.
   * It accepts a value exactly when no resource occurs anywhere inside it,
   * that is when the value is its own portable form.
   */
  function CheckValueType(v: Value): (ok: bool)
    ensures ok <==> Portable(v) == v
    ensures v.Resource? ==> !ok
    decreases v, 1
  {
    match v
    case Arr(_) =>
      var ok := CheckItems(v, 0);
      assert v.entries[0..] == v.entries;
      ok
    case Iterable(_, _) =>
      var ok := CheckItems(v, 0);
      assert v.entries[0..] == v.entries;
      ok
    case Resource(_) => false
    case _ => true
  }

  /** The foreach of checkValueType from position `i` on: every remaining item passes. */
  function CheckItems(v: Value, i: nat): (ok: bool)
    requires v.Arr? || v.Iterable?
    requires i <= |v.entries|
    ensures ok <==> PortablePairs(v, i) == v.entries[i..]
    decreases v, 0, |v.entries| - i
  {
    if i == |v.entries| then true
    else
      var e := v.entries[i];
      assert e in v.entries;
      var head := CheckValueType(e.1);
      var rest := CheckItems(v, i + 1);
      assert v.entries[i..] == [e] + v.entries[i + 1..];
      assert PortablePairs(v, i) == [(e.0, Portable(e.1))] + PortablePairs(v, i + 1);
      assert PortablePairs(v, i) == v.entries[i..] ==>
               PortablePairs(v, i)[0] == e && PortablePairs(v, i)[1..] == PortablePairs(v, i + 1);
      head && rest
  }

  /** The values set() accepts are exactly those that unserialize(serialize()) gives back. */
  lemma AcceptedIffRoundTrips(v: Value)
    ensures CheckValueType(v) <==> Unserialize(Serialize(v)) == v
  {
    RoundTrip(v);
  }

  /*
   * checkFileStatus and initFile
   */

  /** preg_match('/\.php$/', $filename): `$` also matches before a final newline. */
  predicate HasPhpSuffix(name: string)
  {
    (|name| >= 4 && name[|name| - 4..] == ".php") || (|name| >= 5 && name[|name| - 5..] == ".php\n")
  }

  /** A name ending in `.php`, or in `.php` and a newline, passes; other extensions do not. */
  lemma PhpSuffixCases(stem: string)
    ensures HasPhpSuffix(stem + ".php") && HasPhpSuffix(stem + ".php\n")
    ensures !HasPhpSuffix(stem + ".phps") && !HasPhpSuffix(stem + ".php.bak") && !HasPhpSuffix(stem + ".inc")
  {
    assert (stem + ".php")[|stem| ..] == ".php";
    assert (stem + ".php\n")[|stem| ..] == ".php\n";
    assert (stem + ".phps")[|stem| + 1 ..] == "phps";
    assert (stem + ".php.bak")[|stem| + 4 ..] == ".bak";
    assert (stem + ".inc")[|stem| ..] == ".inc";
  }

  /**
   * checkFileStatus as written: the third test asks whether the DIRECTORY is
   * writable again, so it can never fail once the second test has passed.
   */
  function CheckFileStatus(name: string, dirWritable: bool, isFile: bool): (r: Outcome)
    ensures r != Fail(FileNotWritable)
    ensures r == Pass <==> HasPhpSuffix(name) && dirWritable
    ensures !HasPhpSuffix(name) ==> r == Fail(NotPhpFile)
  {
    if !HasPhpSuffix(name) then Fail(NotPhpFile)
    else if !dirWritable then Fail(DirNotWritable)
    else if isFile && !dirWritable then Fail(FileNotWritable)
    else Pass
  }

  /** checkFileStatus with its third test on the file itself, as its message says. */
  function CheckFileStatusIntended(name: string, dirWritable: bool, isFile: bool, fileWritable: bool): (r: Outcome)
    ensures r == Pass <==> HasPhpSuffix(name) && dirWritable && (isFile ==> fileWritable)
    ensures r == Fail(FileNotWritable) <==> HasPhpSuffix(name) && dirWritable && isFile && !fileWritable
    ensures r.Fail? && r != Fail(FileNotWritable) ==> r == CheckFileStatus(name, dirWritable, isFile)
  {
    if !HasPhpSuffix(name) then Fail(NotPhpFile)
    else if !dirWritable then Fail(DirNotWritable)
    else if isFile && !fileWritable then Fail(FileNotWritable)
    else Pass
  }

  /** The check as written lets an existing read-only cache file through; the intended one refuses it. */
  lemma ReadOnlyFileSlipsThrough()
    ensures CheckFileStatus("cache.php", true, true) == Pass
    ensures CheckFileStatusIntended("cache.php", true, true, false) == Fail(FileNotWritable)
  {
  }

  /** The cache file at one path, with the state of the file system around it. */
  class CacheFile {
    const name: string          // basename($file)
    var dirWritable: bool       // is_writable(dirname($file))
    var fileWritable: bool      // is_writable($file)
    var isFile: bool            // is_file($file)
    var contents: FileContents  // what `require $file` returns

    constructor (name: string, dirWritable: bool, fileWritable: bool, isFile: bool, contents: FileContents)
      ensures this.name == name && this.dirWritable == dirWritable && this.fileWritable == fileWritable
      ensures this.isFile == isFile && this.contents == contents
    {
      this.name := name;
      this.dirWritable := dirWritable;
      this.fileWritable := fileWritable;
      this.isFile := isFile;
      this.contents := contents;
    }

    /** The status check initFile makes on this file, as written. */
    function Status(): Outcome
      reads this
    {
      CheckFileStatus(name, dirWritable, isFile)
    }
  }

  /** initFile: check the path, and create the file holding an empty array if it is missing. */
  method InitFile(file: CacheFile) returns (r: Outcome)
    modifies file
    ensures r == old(file.Status())
    ensures r.Fail? ==> unchanged(file)
    ensures r.Pass? ==> file.isFile && file.dirWritable == old(file.dirWritable)
    ensures r.Pass? ==> file.contents == if old(file.isFile) then old(file.contents) else map[]
    ensures r.Pass? ==> file.fileWritable == (if old(file.isFile) then old(file.fileWritable) else true)
    ensures r.Pass? ==> file.Status() == Pass
  {
    r := CheckFileStatus(file.name, file.dirWritable, file.isFile);
    if r.Fail? {
      return;
    }
    if !file.isFile {
      file.isFile, file.fileWritable, file.contents := true, true, map[];
    }
  }

  /*
   * The file format: every value serialized on its own
   */

  /** The array writeFile exports: each item's value serialized. */
  function EncodeSnapshot(m: Snapshot): FileContents
  {
    map k | k in m :: Stored(m[k].expireAt, Serialize(m[k].value))
  }

  /** The snapshot reloadFile builds: each item's value unserialized. */
  function DecodeSnapshot(c: FileContents): Snapshot
  {
    map k | k in c :: Entry(Unserialize(c[k].data), c[k].expire)
  }

  /** A snapshot in which every value passes checkValueType. */
  predicate AllAccepted(m: Snapshot)
  {
    forall k :: k in m ==> CheckValueType(m[k].value)
  }

  /**
   * Decoding what was encoded gives the snapshot back, every value in its
   * portable form; a snapshot of accepted values comes back exactly.
   */
  lemma SnapshotRoundTrip(m: Snapshot)
    ensures DecodeSnapshot(EncodeSnapshot(m)).Keys == m.Keys
    ensures forall k :: k in m ==>
              DecodeSnapshot(EncodeSnapshot(m))[k] == Entry(Portable(m[k].value), m[k].expireAt)
    ensures AllAccepted(m) ==> DecodeSnapshot(EncodeSnapshot(m)) == m
  {
    var d := DecodeSnapshot(EncodeSnapshot(m));
    forall k | k in m
      ensures d[k] == Entry(Portable(m[k].value), m[k].expireAt)
      ensures CheckValueType(m[k].value) ==> d[k] == m[k]
    {
      RoundTrip(m[k].value);
    }
  }

  /** The foreach of writeFile: serialize the value of every item. */
  method EncodeItems(m: Snapshot) returns (c: FileContents)
    ensures c == EncodeSnapshot(m)
  {
    c := map[];
    var todo := m.Keys;
    while todo != {}
      invariant todo <= m.Keys
      invariant c.Keys == m.Keys - todo
      invariant forall k :: k in c ==> c[k] == Stored(m[k].expireAt, Serialize(m[k].value))
      decreases todo
    {
      var k :| k in todo;
      c := c[k := Stored(m[k].expireAt, Serialize(m[k].value))];
      todo := todo - {k};
    }
  }

  /** The foreach of reloadFile: unserialize the data of every item. */
  method DecodeItems(c: FileContents) returns (m: Snapshot)
    ensures m == DecodeSnapshot(c)
  {
    m := map[];
    var todo := c.Keys;
    while todo != {}
      invariant todo <= c.Keys
      invariant m.Keys == c.Keys - todo
      invariant forall k :: k in m ==> m[k] == Entry(Unserialize(c[k].data), c[k].expire)
      decreases todo
    {
      var k :| k in todo;
      m := m[k := Entry(Unserialize(c[k].data), c[k].expire)];
      todo := todo - {k};
    }
  }

  /*
   * The cache
   */

  class FileCache {
    const file: CacheFile
    var data: Snapshot

    /** The second half of __construct: load the snapshot from an existing file. */
    constructor Load(file: CacheFile)
      requires file.isFile
      ensures this.file == file && data == DecodeSnapshot(file.contents)
    {
      this.file := file;
      new;
      Reload();
    }

    /** reloadFile: the snapshot becomes the decoded contents of the file. */
    method Reload()
      modifies this`data
      ensures data == DecodeSnapshot(file.contents)
    {
      data := DecodeItems(file.contents);
    }

    /**
     * The state after writeFile was asked to persist `staged` (already in
     * `data`): a refused path check leaves the file alone and raises; a
     * write succeeds exactly when it is allowed and the file is writable, and
     * leaves the file holding the encoded snapshot; a failed write leaves the
     * file as initFile left it and reloads the snapshot from it.
     */
    twostate predicate Persisted(new r: Result<bool>, staged: Snapshot, writeOk: bool)
      reads this, file
    {
      var status := old(file.Status());
      && file.dirWritable == old(file.dirWritable)
      && (status.Fail? ==>
            r == Err(status.error) && data == staged && file.isFile == old(file.isFile)
            && file.contents == old(file.contents) && file.fileWritable == old(file.fileWritable))
      && (status.Pass? ==>
            && file.isFile
            && file.Status() == Pass
            && file.fileWritable == (if old(file.isFile) then old(file.fileWritable) else true)
            && r == Ok(writeOk && file.fileWritable)
            && (writeOk && file.fileWritable ==> data == staged && file.contents == EncodeSnapshot(staged))
            && (!(writeOk && file.fileWritable) ==>
                  && file.contents == (if old(file.isFile) then old(file.contents) else map[])
                  && data == DecodeSnapshot(file.contents)))
    }

    /** writeFile($this->data): initFile, encode every item, write; reload when the write fails. */
    method WriteFile(writeOk: bool) returns (r: Result<bool>)
      modifies this`data, file
      ensures Persisted(r, old(data), writeOk)
    {
      var status := InitFile(file);
      if status.Fail? {
        return Err(status.error);
      }
      var encoded := EncodeItems(data);
      if writeOk && file.fileWritable {
        file.contents := encoded;
        r := Ok(true);
      } else {
        Reload();
        r := Ok(false);
      }
    }

    /** get: the live value stored under `key`, or the default; a key that is not a string raises. */
    method Get(key: Value, default: Value, now: int) returns (r: Result<Value>)
      ensures !key.Str? ==> r == Err(InvalidKey)
      ensures key.Str? ==> r == Ok(Read(data, key.s, default, now))
    {
      if !CheckStringType(key) {
        return Err(InvalidKey);
      }
      if StrKey(key.s) !in data {
        return Ok(default);
      }
      var item := data[StrKey(key.s)];
      if item.expireAt.Some? && now >= item.expireAt.value {
        return Ok(default);
      }
      r := Ok(item.value);
    }

    /** setData: store `value` under `key` with the expiry the ttl gives; an invalid ttl raises first. */
    method SetData(key: ArrKey, value: Value, ttl: Value, now: int) returns (r: Outcome)
      modifies this`data
      ensures !CheckTtlType(ttl) ==> r == Fail(InvalidTtl) && data == old(data)
      ensures CheckTtlType(ttl) ==>
                r == Pass && data == old(data)[key := Entry(value, NormalizeExpireAt(ttl, now).value)]
    {
      var expireAt := NormalizeExpireAt(ttl, now);
      if expireAt.Err? {
        return Fail(expireAt.error);
      }
      data := data[key := Entry(value, expireAt.value)];
      r := Pass;
    }

    /** set: validate key, value and ttl before any change, store, then rewrite the file. */
    method Set(key: Value, value: Value, ttl: Value, now: int, writeOk: bool) returns (r: Result<bool>)
      modifies this`data, file
      ensures !key.Str? ==> r == Err(InvalidKey) && unchanged(this, file)
      ensures key.Str? && !CheckValueType(value) ==> r == Err(InvalidValue) && unchanged(this, file)
      ensures key.Str? && CheckValueType(value) && !CheckTtlType(ttl) ==>
                r == Err(InvalidTtl) && unchanged(this, file)
      ensures key.Str? && CheckValueType(value) && CheckTtlType(ttl) ==>
                Persisted(r, old(data)[StrKey(key.s) := Entry(value, NormalizeExpireAt(ttl, now).value)], writeOk)
    {
      if !CheckStringType(key) {
        return Err(InvalidKey);
      }
      if !CheckValueType(value) {
        return Err(InvalidValue);
      }
      var status := SetData(StrKey(key.s), value, ttl, now);
      if status.Fail? {
        return Err(status.error);
      }
      r := WriteFile(writeOk);
    }

    /** delete: drop the key (present or not), then rewrite the file. */
    method Delete(key: Value, writeOk: bool) returns (r: Result<bool>)
      modifies this`data, file
      ensures !key.Str? ==> r == Err(InvalidKey) && unchanged(this, file)
      ensures key.Str? ==> Persisted(r, old(data) - {StrKey(key.s)}, writeOk)
    {
      if !CheckStringType(key) {
        return Err(InvalidKey);
      }
      data := data - {StrKey(key.s)};
      r := WriteFile(writeOk);
    }

    /** deleteFile: `@unlink($this->file)`, false when the file is missing or the unlink fails. */
    method DeleteFile(unlinkOk: bool) returns (r: bool)
      modifies file
      ensures r == (old(file.isFile) && unlinkOk)
      ensures r ==> !file.isFile && file.contents == map[]
      ensures !r ==> file.isFile == old(file.isFile) && file.contents == old(file.contents)
      ensures file.dirWritable == old(file.dirWritable) && file.fileWritable == old(file.fileWritable)
    {
      r := file.isFile && unlinkOk;
      if r {
        file.isFile, file.contents := false, map[];
      }
    }

    /** clear: empty the snapshot and remove the file, answering the unlink's result. */
    method Clear(unlinkOk: bool) returns (r: bool)
      modifies this`data, file
      ensures data == map[]
      ensures r == (old(file.isFile) && unlinkOk)
      ensures r ==> !file.isFile
      ensures !r ==> file.isFile == old(file.isFile) && file.contents == old(file.contents)
      ensures file.dirWritable == old(file.dirWritable) && file.fileWritable == old(file.fileWritable)
    {
      data := map[];
      r := DeleteFile(unlinkOk);
    }

    /** getMultiple: `$data[$key] = get($key, $default)` for each key in turn. */
    method GetMultiple(keys: Value, default: Value, now: int) returns (r: Result<seq<(ArrKey, Value)>>)
      ensures !CheckTraversableType(keys) ==> r == Err(NotTraversable)
      ensures CheckTraversableType(keys) && !AllStrings(Items(keys)) ==> r == Err(InvalidKey)
      ensures CheckTraversableType(keys) && AllStrings(Items(keys)) ==>
                r == Ok(Collect(Items(keys), data, default, now))
    {
      if !CheckTraversableType(keys) {
        return Err(NotTraversable);
      }
      var ks := Items(keys);
      var ret := [];
      var i := 0;
      while i < |ks|
        invariant 0 <= i <= |ks|
        invariant AllStrings(ks[..i])
        invariant ret == Collect(ks[..i], data, default, now)
      {
        var got := Get(ks[i], default, now);
        if got.Err? {
          return Err(got.error);
        }
        assert ks[..i + 1][..i] == ks[..i];
        ret := ArrSet(ret, StrKey(ks[i].s), got.value);
        i := i + 1;
      }
      assert ks[..i] == ks;
      r := Ok(ret);
    }

    /**
     * setMultiple: setData for each pair in turn (keys and values are not
     * checked), then one write. An invalid ttl raises at the first pair.
     */
    method SetMultiple(values: Value, ttl: Value, now: int, writeOk: bool) returns (r: Result<bool>)
      modifies this`data, file
      ensures !CheckTraversableType(values) ==> r == Err(NotTraversable) && unchanged(this, file)
      ensures CheckTraversableType(values) && |Pairs(values)| > 0 && !CheckTtlType(ttl) ==>
                r == Err(InvalidTtl) && unchanged(this, file)
      ensures CheckTraversableType(values) && |Pairs(values)| == 0 ==> Persisted(r, old(data), writeOk)
      ensures CheckTraversableType(values) && CheckTtlType(ttl) ==>
                Persisted(r, StoreAll(old(data), Pairs(values), NormalizeExpireAt(ttl, now).value), writeOk)
    {
      if !CheckTraversableType(values) {
        return Err(NotTraversable);
      }
      var es := Pairs(values);
      var i := 0;
      while i < |es|
        invariant 0 <= i <= |es|
        invariant i > 0 ==> CheckTtlType(ttl)
        invariant i > 0 ==> data == StoreAll(old(data), es[..i], NormalizeExpireAt(ttl, now).value)
        invariant i == 0 ==> data == old(data)
        modifies this`data
      {
        var status := SetData(es[i].0, es[i].1, ttl, now);
        if status.Fail? {
          return Err(status.error);
        }
        assert es[..i + 1][..i] == es[..i];
        i := i + 1;
      }
      assert es[..i] == es;
      r := WriteFile(writeOk);
    }

    /**
     * deleteMultiple: `unset($this->data[$key])` for each key in turn, then one
     * write. A key PHP cannot use as an offset stops the loop before the write,
     * with the earlier keys already gone from the snapshot.
     */
    method DeleteMultiple(keys: Value, writeOk: bool) returns (r: Result<bool>)
      modifies this`data, file
      ensures !CheckTraversableType(keys) ==> r == Err(NotTraversable) && unchanged(this, file)
      ensures CheckTraversableType(keys) && |OffsetPrefix(Items(keys))| < |Items(keys)| ==>
                r == Err(IllegalOffset) && data == RemoveAll(old(data), OffsetPrefix(Items(keys)))
                && unchanged(file)
      ensures CheckTraversableType(keys) && |OffsetPrefix(Items(keys))| == |Items(keys)| ==>
                Persisted(r, RemoveAll(old(data), OffsetPrefix(Items(keys))), writeOk)
    {
      if !CheckTraversableType(keys) {
        return Err(NotTraversable);
      }
      var removed := UnsetAll(Items(keys));
      if removed.Fail? {
        return Err(removed.error);
      }
      r := WriteFile(writeOk);
    }

    /** The foreach of deleteMultiple: unset each key in turn, stopping at the first illegal offset. */
    method UnsetAll(ks: seq<Value>) returns (r: Outcome)
      modifies this`data
      ensures data == RemoveAll(old(data), OffsetPrefix(ks))
      ensures r == if |OffsetPrefix(ks)| < |ks| then Fail(IllegalOffset) else Pass
    {
      ghost var offsets := OffsetPrefix(ks);
      var i := 0;
      while i < |ks|
        invariant 0 <= i <= |offsets|
        invariant data == RemoveAll(old(data), offsets[..i])
      {
        var offset := ToArrKey(ks[i]);
        if offset.Err? {
          assert offsets[..i] == offsets;
          return Fail(offset.error);
        }
        assert offsets[..i + 1][..i] == offsets[..i];
        data := data - {offset.value};
        i := i + 1;
      }
      assert offsets[..i] == offsets;
      r := Pass;
    }

    /** has: whether the key is in the snapshot at all, expired or not. */
    method Has(key: Value) returns (r: Result<bool>)
      ensures !key.Str? ==> r == Err(InvalidKey)
      ensures key.Str? ==> r == Ok(StrKey(key.s) in data)
    {
      if !CheckStringType(key) {
        return Err(InvalidKey);
      }
      r := Ok(StrKey(key.s) in data);
    }
  }

  /** __construct($file): initFile, then load the snapshot from the file. */
  method Open(file: CacheFile) returns (r: Result<FileCache>)
    modifies file
    ensures r.Err? ==> old(file.Status()) == Fail(r.error) && unchanged(file)
    ensures r.Ok? <==> old(file.Status()) == Pass
    ensures r.Ok? ==> fresh(r.value) && r.value.file == file && file.isFile
    ensures r.Ok? ==> file.contents == (if old(file.isFile) then old(file.contents) else map[])
    ensures r.Ok? ==> r.value.data == DecodeSnapshot(file.contents)
    ensures r.Ok? ==> file.Status() == Pass && file.dirWritable == old(file.dirWritable)
    ensures r.Ok? ==> file.fileWritable == (if old(file.isFile) then old(file.fileWritable) else true)
  {
    var status := InitFile(file);
    if status.Fail? {
      return Err(status.error);
    }
    var cache := new FileCache.Load(file);
    r := Ok(cache);
  }

  /*
   * Several instances on one file
   */

  /** A second instance opened after a successful set sees the value the first one stored. */
  method SecondInstanceSeesFirst(file: CacheFile, key: string, value: Value, default: Value, now: int)
    returns (seen: Result<Value>)
    requires file.Status() == Pass && (file.isFile ==> file.fileWritable)
    requires CheckValueType(value)
    modifies file
    ensures seen == Ok(value)
  {
    var outcome := Open(file);
    var first := outcome.value;
    var written := first.Set(Str(key), value, Null, now, true);
    outcome := Open(file);
    var second := outcome.value;
    SnapshotRoundTrip(first.data);
    seen := second.Get(Str(key), default, now);
  }

  /**
   * Two instances opened on a new file both write: the later write replaces the
   * whole file, so a third instance sees the second writer's key and not the first's.
   */
  method LastWriterWins(file: CacheFile, key1: string, value1: Value, key2: string, value2: Value,
                        default: Value, now: int)
    returns (seen1: Result<Value>, seen2: Result<Value>)
    requires file.Status() == Pass && !file.isFile
    requires key1 != key2 && CheckValueType(value2)
    modifies file
    ensures seen1 == Ok(default)
    ensures seen2 == Ok(value2)
  {
    var outcome := Open(file);
    var a := outcome.value;
    outcome := Open(file);
    var b := outcome.value;
    var written := a.Set(Str(key1), value1, Null, now, true);
    written := b.Set(Str(key2), value2, Null, now, true);
    outcome := Open(file);
    var c := outcome.value;
    SnapshotRoundTrip(b.data);
    seen1 := c.Get(Str(key1), default, now);
    seen2 := c.Get(Str(key2), default, now);
  }

  /** After a clear that removed the file, a new instance starts from an empty snapshot. */
  method ReopenAfterClear(file: CacheFile, key: string, value: Value, default: Value, now: int)
    returns (cleared: bool, seen: Result<Value>)
    requires file.Status() == Pass
    modifies file
    ensures cleared
    ensures seen == Ok(default)
  {
    var outcome := Open(file);
    var a := outcome.value;
    var written := a.Set(Str(key), value, Null, now, true);
    cleared := a.Clear(true);
    outcome := Open(file);
    var b := outcome.value;
    assert b.data == map[];
    seen := b.Get(Str(key), default, now);
  }

  /**
   * An existing read-only cache file passes the path check as written, so the
   * instance opens; set() then fails to write, answers false and reloads the
   * snapshot from the untouched file, so the value is not kept.
   */
  method ReadOnlyFileSetReloads(file: CacheFile, key: string, value: Value, default: Value, now: int)
    returns (written: Result<bool>, seen: Result<Value>)
    requires HasPhpSuffix(file.name) && file.dirWritable
    requires file.isFile && !file.fileWritable
    requires CheckValueType(value)
    modifies file
    ensures written == Ok(false)
    ensures file.contents == old(file.contents)
    ensures seen == Ok(Read(DecodeSnapshot(old(file.contents)), key, default, now))
  {
    var outcome := Open(file);
    var cache := outcome.value;
    written := cache.Set(Str(key), value, Null, now, true);
    seen := cache.Get(Str(key), default, now);
  }
}
