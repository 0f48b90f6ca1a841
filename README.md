# php-cache in Dafny

A model of the PSR-16 ("simple cache") backends of `104corp/php-cache`, with
proofs about what they promise:

- **FileBackend** (`src/FileCache.php`): a cache that keeps an in-memory
  snapshot and rewrites a whole PHP file on every change. The file system is
  a `CacheFile` object that several `FileCache` instances can share.
  Whether a write or an unlink succeeds is passed in, and so is the clock.
  Each stored value goes through `serialize()` and comes back through
  `unserialize()`.
- **Serializer**: a model of PHP's serialize/unserialize at the level of the
  grammar's symbols, with a proved round trip. Objects are opaque here. Over
  the values modelled, `checkValueType` accepts a value exactly when that
  round trip gives it back unchanged.
- **ArrayBackend** (`src/ArrayCache.php`): the same operations over a
  process-local map.
- **DummyBackend** (`src/DummyCache.php`): the null cache. It keeps nothing
  and never throws.
- **CacheAware** (`src/Util/CacheAwareTrait.php`): the mixin that holds a
  driver and a ttl. The ttl is chosen lazily from `getDefaultTtl()`.
- **Helper** (`Corp104\Cache\Util\Helper`) is not part of the source files
  modelled here. Its checks and its ttl normalisation are written from what
  `tests/Util/HelperTest.php` expects of them.
- **Values** and **CacheData** hold the shared vocabulary:
  - PHP values and array keys;
  - one `Error` per kind of `InvalidArgumentException`, plus `IllegalOffset`
    for a value PHP refuses as an array offset (a `TypeError` in PHP 8);
  - the `get` rule for live and expired entries;
  - PHP's ordered-array assignment, which `getMultiple` uses to build its
    answer.

Exceptions are results: `Err(e)` (or `Fail(e)`) means the PHP code throws,
and the contract says what state is left behind. The clock `time()` is the
integer parameter `now`.

## Model

| member | source | states |
|---|---|---|
| Values.ToArrKey | src/FileCache.php:206-208 | strings and integers are used as array offsets unchanged; booleans, null and resources are converted, a resource to its integer id; arrays, objects and (see Left out) floats are refused |
| Helper.NormalizeTtl | tests/Util/HelperTest.php:17-31 | succeeds exactly for null, int and DateInterval; null means no expiry, an int is itself, one hour is 3600 seconds; anything else raises InvalidTtl |
| Helper.NormalizeExpireAt | tests/Util/HelperTest.php:36-69 | the expiry instant is `now + ttl` for an int, absent exactly for null, and InvalidTtl for every invalid ttl |
| Helper.CheckStringType | tests/Util/HelperTest.php:107-122 | a cache key must be a string; the cases are in Helper.StringTypeCases |
| Helper.CheckTraversableType | tests/Util/HelperTest.php:127-140 | a bulk argument must be an array or a Traversable; the cases are in Helper.TraversableTypeCases |
| Helper.CheckTtlType | tests/Util/HelperTest.php:146-179 | a ttl must be null, an int or a DateInterval; the cases are in Helper.TtlTypeCases |
| Helper.NormalizeCases | tests/Util/HelperTest.php:17-69 | null gives no expiry, 3600 and PT1H give 3600 seconds, and the expiry instant is `now + 3600` |
| Helper.InvalidTtlCases | tests/Util/HelperTest.php:76-100 | a string, a float, true, an array and an object are refused by both normalisations |
| Helper.StringTypeCases | tests/Util/HelperTest.php:107-122 | every string is a valid key; an int, a float, false, true, an array and an object are not |
| Helper.TraversableTypeCases | tests/Util/HelperTest.php:127-140 | a Traversable and an array pass; a string does not |
| Helper.TtlTypeCases | tests/Util/HelperTest.php:146-179 | null, 3600 and PT1H pass; a string, a float, false, an array and an object do not |
| Serializer.Serialize | src/FileCache.php:256 | serialize($value): the partner of Unserialize, with the round trip in Serializer.RoundTrip |
| Serializer.Unserialize | src/FileCache.php:239 | unserialize($data): the first serialized value, any data after it ignored, or false when the input does not start with one; its cases are in Serializer.RoundTrip and Serializer.TrailingDataIgnored |
| Serializer.ParseSerialize | src/FileCache.php:255-257 | a serialized value is self-delimiting: parsing it back, followed by anything, yields the value's portable form and leaves the rest untouched |
| Serializer.ParseSerializePairs | src/FileCache.php:255-257 | the same for the pairs of an array or Traversable, from any position on |
| Serializer.RoundTrip | src/FileCache.php:238-240 | unserialize(serialize(v)) is v with its resources replaced by 0 |
| Serializer.TrailingDataIgnored | src/FileCache.php:239 | whatever follows a serialized value, unserialize answers that value in its portable form |
| FileBackend.CheckValueType | src/FileCache.php:37-50 | accepts a value exactly when no resource occurs anywhere inside it, so it is its own portable form; a resource is refused |
| FileBackend.CheckItems | src/FileCache.php:39-45 | the foreach over an array's or Traversable's items accepts exactly when every remaining item is free of resources |
| FileBackend.AcceptedIffRoundTrips | src/FileCache.php:37-50 | within the model's opaque objects, the values set() accepts are exactly those that come back unchanged from the file |
| FileBackend.HasPhpSuffix | src/FileCache.php:61 | the `/\.php$/` test on the base name, where `$` also matches before a final newline; the cases are in FileBackend.PhpSuffixCases |
| FileBackend.PhpSuffixCases | src/FileCache.php:61 | any name ending in `.php`, or in `.php` and a newline, passes; `.phps`, `.php.bak` and `.inc` names do not |
| FileBackend.CheckFileStatus | src/FileCache.php:56-72 | as written: passes exactly for a `.php` name in a writable directory; the "file not writable" error can never be raised |
| FileBackend.CheckFileStatusIntended | src/FileCache.php:56-72 | passes exactly for a `.php` name in a writable directory whose file, if present, is writable; raises "not writable" exactly for an existing read-only file; otherwise agrees with the check as written |
| FileBackend.ReadOnlyFileSlipsThrough | src/FileCache.php:69-71 | an existing read-only `cache.php` in a writable directory passes the check as written and is refused by the intended one |
| FileBackend.InitFile | src/FileCache.php:78-86 | runs the check as written: a refused path changes nothing; otherwise a missing file is created, writable and holding an empty array, and an existing one, read-only or not, is left as it is |
| FileBackend.SnapshotRoundTrip | src/FileCache.php:234-257 | reloading what writeFile exported gives back the same keys and expiries, every value in its portable form, and a snapshot of accepted values exactly |
| FileBackend.EncodeItems | src/FileCache.php:255-257 | the loop serializes every item's value and keeps its expiry |
| FileBackend.DecodeItems | src/FileCache.php:238-240 | the loop unserializes every item's data and keeps its expiry |
| FileBackend.Open | src/FileCache.php:106-112 | the constructor raises exactly the as-written path check's error and leaves the file alone, or yields a fresh instance whose snapshot is the decoded file |
| FileBackend.FileCache.Load | src/FileCache.php:110-111 | the new instance's snapshot is the decoded contents of its file |
| FileBackend.FileCache.Reload | src/FileCache.php:234-243 | the snapshot becomes the decoded contents of the file |
| FileBackend.FileCache.WriteFile | src/FileCache.php:251-268 | after initFile, the write succeeds exactly when it is allowed and the file is writable, and leaves the encoded snapshot in the file; a failed write answers false and reloads the snapshot from the file; a refused path raises |
| FileBackend.FileCache.Get | src/FileCache.php:117-132 | a non-string key raises; otherwise the stored value while it is live, the default when missing or expired |
| FileBackend.FileCache.SetData | src/FileCache.php:94-100 | an invalid ttl raises before any change; otherwise exactly one entry is added or replaced, with the ttl's expiry |
| FileBackend.FileCache.Set | src/FileCache.php:137-145 | key, value and ttl are checked in that order before any change; then the new entry is persisted as WriteFile describes |
| FileBackend.FileCache.Delete | src/FileCache.php:150-157 | a non-string key raises; otherwise the snapshot without that key, present or not, is persisted |
| FileBackend.FileCache.DeleteFile | src/FileCache.php:226-229 | answers true exactly when the file existed and the unlink succeeded, and then the file is gone |
| FileBackend.FileCache.Clear | src/FileCache.php:162-167 | the snapshot is emptied whatever happens; the answer is the unlink's |
| FileBackend.FileCache.GetMultiple | src/FileCache.php:172-183 | a non-traversable argument raises; a non-string key raises; otherwise the answer is what get answers for each key, assigned in turn into a PHP array |
| FileBackend.FileCache.SetMultiple | src/FileCache.php:188-197 | every pair, whatever its key, is stored with the same expiry and then persisted once; an invalid ttl raises at the first pair with nothing changed |
| FileBackend.FileCache.DeleteMultiple | src/FileCache.php:202-211 | every key is removed in turn and the result persisted once; an illegal offset stops the loop before the write, with the earlier keys already gone |
| FileBackend.FileCache.UnsetAll | src/FileCache.php:206-208 | the snapshot loses exactly the leading keys that are legal offsets, and the loop fails exactly when one is not |
| FileBackend.FileCache.Has | src/FileCache.php:216-221 | a non-string key raises; otherwise whether the key is stored, expired or not |
| FileBackend.SecondInstanceSeesFirst | tests/PhpArrayCacheTest.php:312-342 | after one instance sets an accepted value, a second instance opened on the same file reads that value |
| FileBackend.LastWriterWins | src/FileCache.php:251-261 | two instances opened on a new file both set a key; a third instance sees only the later writer's key, because every write replaces the whole file |
| FileBackend.ReopenAfterClear | tests/PhpArrayCacheTest.php:258-279 | clear removes the file, and an instance opened afterwards reads the default |
| FileBackend.ReadOnlyFileSetReloads | src/FileCache.php:253-267 | an existing read-only cache file opens; set() then answers false, leaves the file as it was and reloads the snapshot from it, so the value is not kept |
| CacheData.CollectInOrder | src/ArrayCache.php:73-83 | for distinct string keys, getMultiple answers one pair per key, in the keys' order, each holding what get answers |
| CacheData.StoreAllLookup | src/ArrayCache.php:88-97 | after storing a list of pairs, every listed key holds the value of the last pair that lists it, with the common expiry (so for distinct keys, its own pair's), and every other key is untouched |
| CacheData.RemoveAllLookup | src/ArrayCache.php:102-111 | after removing a list of keys, exactly those keys are gone and every other entry is unchanged |
| CacheData.SetThenGetMultiple | tests/ArrayCacheTest.php:197-210 | storing an array with string keys and then reading its keys gives the array back, order included |
| CacheData.ExpiryWindow | tests/ArrayCacheTest.php:133-155 | an entry stored with ttl `t` at `setAt` is read back strictly before `setAt + t` and missed from then on; a ttl of 0 or less misses at once |
| ArrayBackend.ArrayCache.constructor | src/ArrayCache.php:12 | a new cache holds nothing |
| ArrayBackend.ArrayCache.Get | src/ArrayCache.php:17-31 | a non-string key raises; otherwise the stored value while it is live, the default when missing or expired |
| ArrayBackend.ArrayCache.Set | src/ArrayCache.php:36-46 | a non-string key, then an invalid ttl, raise with nothing changed; otherwise exactly one entry is added or replaced and the answer is true |
| ArrayBackend.ArrayCache.Delete | src/ArrayCache.php:51-58 | a non-string key raises; otherwise the key is gone, present before or not, and the answer is true |
| ArrayBackend.ArrayCache.Clear | src/ArrayCache.php:63-68 | everything is forgotten and the answer is true |
| ArrayBackend.ArrayCache.GetMultiple | src/ArrayCache.php:73-83 | a non-traversable argument raises; a non-string key raises; otherwise what get answers for each key, assigned in turn into a PHP array |
| ArrayBackend.ArrayCache.SetMultiple | src/ArrayCache.php:88-97 | the pairs before the first non-string key are stored and kept when that key raises; an invalid ttl raises at the first pair with nothing changed |
| ArrayBackend.ArrayCache.DeleteMultiple | src/ArrayCache.php:102-111 | the keys before the first non-string key are removed and stay removed when that key raises |
| ArrayBackend.ArrayCache.DeleteEach | src/ArrayCache.php:106-108 | the foreach deletes the leading string keys in turn and fails exactly when it reaches a key that is not a string |
| ArrayBackend.ArrayCache.Has | src/ArrayCache.php:116-121 | a non-string key raises; otherwise whether the key is stored, expired or not |
| ArrayBackend.GetAfterSet | tests/ArrayCacheTest.php:133-155 | a value set with an integer ttl reads back before the ttl has elapsed and as the default from then on |
| ArrayBackend.SetMultipleThenGetMultiple | tests/ArrayCacheTest.php:197-210 | setMultiple of an array with string keys, then getMultiple of its keys, answers that array |
| DummyBackend.Get | src/DummyCache.php:16-19 | the default, for any key; proved with the other constant answers in DummyBackend.NothingIsKept |
| DummyBackend.Set | src/DummyCache.php:24-27 | false, nothing stored, for any arguments |
| DummyBackend.Delete | src/DummyCache.php:32-35 | true, for any key |
| DummyBackend.Clear | src/DummyCache.php:40-43 | true |
| DummyBackend.SetMultiple | src/DummyCache.php:58-61 | false, nothing stored, for any arguments |
| DummyBackend.DeleteMultiple | src/DummyCache.php:66-69 | true, for any argument |
| DummyBackend.Has | src/DummyCache.php:74-77 | false, for any key |
| DummyBackend.Yield | src/DummyCache.php:50-52 | the generator yields one pair per key, in order, each key with the default |
| DummyBackend.GetMultiple | src/DummyCache.php:48-53 | one pair per item of the argument, each item with the default; nothing for a non-iterable argument |
| DummyBackend.NothingIsKept | src/DummyCache.php:16-77 | writes answer false, removals answer true, get always answers the default and has always answers false |
| DummyBackend.ReadsLikeEmptyCache | src/DummyCache.php:48-53 | for distinct string keys, the null cache's getMultiple and get answer what an empty array cache answers |
| CacheAware.Host.constructor | src/Util/CacheAwareTrait.php:16-21 | a host starts with no driver and the ttl `false`, meaning "not chosen yet" |
| CacheAware.Host.GetTtl | src/Util/CacheAwareTrait.php:26-33 | the chosen ttl is answered; if none was chosen, the default becomes the choice |
| CacheAware.Host.SetCache | src/Util/CacheAwareTrait.php:40-43 | the driver, or none, is replaced and the ttl is left alone |
| CacheAware.Host.SetTtl | src/Util/CacheAwareTrait.php:51-56 | succeeds exactly for a valid ttl, which then becomes the choice; an invalid one raises and changes nothing |
| CacheAware.SetThenGetTtl | tests/Util/CacheAwareTest.php:36-53 | a ttl accepted by setTtl is exactly what getTtl answers, whatever the default |
| CacheAware.DefaultIsSticky | tests/Util/CacheAwareTest.php:58-70 | without setTtl, getTtl answers the default and keeps answering the first default it saw, unless that was `false` |
| CacheAware.RejectedTtlKeepsChoice | tests/Util/CacheAwareTest.php:15-30 | a rejected ttl leaves the earlier choice in place |

## Left out

- The file system is a `CacheFile` object: `dirname`/`basename`, permissions and the file's existence are plain fields. Whether a write or an unlink succeeds is passed in. Nothing else can change the file between calls.
- `touch` and `file_put_contents` in initFile are assumed to succeed. Their failure is not modelled.
- The file's text is left out: the `var_export` rendering and the `<?php return …;` template. The file holds the exported array itself, and `require` gives it back.
- A cache file whose contents are not such an array is left out.
- A write fails as a whole: a partially written file is not modelled.
- The text spelling of serialized values is left out. The model covers their symbol structure only.
- The order of the snapshot's items is left out: the snapshot is a map. Order only affects the file's text.
- Objects are opaque identities. Their properties, shared references, `__sleep`/`__wakeup` and `Serializable` are left out. A Traversable round-trips as an object that yields the same pairs.
- FileBackend.AcceptedIffRoundTrips: checkValueType does not look inside an object that is not Traversable. Such an object may hold a resource property, which serialize writes as `i:0`. The model's opaque objects cannot hold one.
- Serializer.Serialize is total. PHP's serialize throws for a Closure or a Generator, which checkValueType accepts. The throw would come inside writeFile, after setData has changed the snapshot and before the file is written. The model has no such objects.
- PHP canonicalises numeric-string array keys: `"123"` becomes the integer key 123. This is left out, so a string key always stays a string key.
- Values.ToArrKey: PHP truncates a float offset to an integer. Float values are opaque here, so the model refuses a float offset as illegal.
- FileBackend.FileCache.DeleteMultiple: an illegal offset in `unset` raises, as in PHP 8. Under PHP 7 it only warns and the loop goes on.
- A Traversable is seen through the key/value pairs it yields. Keys other than integers and strings, and generators that fail or run forever, are left out.
- DateInterval is days, hours, minutes, seconds and microseconds. The ttl is the whole seconds, counting a day as 24 hours. Years, months, inverted intervals and the calendar are left out.
- The clock is an integer parameter. Sub-second sleeps in the tests become whole seconds. One `now` serves a whole setMultiple, while the source reads the clock again for each pair, so a tick in the middle of the loop would give the later pairs a later expiry.
- `getDefaultTtl()` belongs to the class that uses the trait. Its answer is the `defaultTtl` argument of GetTtl.
- `CacheAwareInterface` declares methods and has no behaviour of its own. It is not part of this model.

## Findings

| source | as written | input that shows it | evidently intended | confidence | as-written member | corrected member |
|---|---|---|---|---|---|---|
| src/FileCache.php:69 | the third test of checkFileStatus is `is_file($file) && !is_writable($dir)`. The directory was found writable on the line before, so this test can never raise. | an existing, read-only `cache.php` in a writable directory passes the check. The following write then fails and the cache silently reloads. | raise "File '…' is not writable" when the file exists and is not writable: `is_writable($file)` | high, not executed | FileBackend.CheckFileStatus, FileBackend.ReadOnlyFileSlipsThrough, FileBackend.ReadOnlyFileSetReloads | FileBackend.CheckFileStatusIntended |
