/**
 * The key-prefixed cache helpers: key formatting, the get/set/delete/add/
 * incr/decr wrappers over the backing Django cache, the badge cache and
 * the read-through `SimpleGetCache.get`. The backing cache is a `Store`
 * object holding a map from formatted keys to stored entries.
 */
module CacheBase {
  import opened Wrappers
  import opened JsonData
  import Text

  /** A key as callers pass it: a scalar (rendered with `str`) or a tuple/list of parts. */
  datatype CacheKey = Scalar(s: string) | Composite(parts: seq<string>)

  /** One stored value and the timeout it was stored with. */
  datatype Entry = Entry(value: Json, timeout: int)

  /** What the backing cache raises from `incr`. */
  datatype CacheError =
    | KeyNotFound(key: string)   // ValueError("Key '...' not found")
    | NotAnInteger(key: string)  // TypeError adding the delta to a non-integer value

  /** The backing Django cache (`cache` or `caches[alias]`). */
  class Store {
    var entries: map<string, Entry>

    constructor(entries: map<string, Entry>)
      ensures this.entries == entries
    {
      this.entries := entries;
    }
  }

  // ---------------------------------------------------------------------
  // Keys
  // ---------------------------------------------------------------------

  /**
   * `_format_key`: the bare prefix for a single-key cache whatever the key;
   * otherwise the prefix, a colon, and the key (its parts joined with "-"
   * for a tuple or list).
   */
  function FormatKey(prefix: string, singleKey: bool, key: CacheKey): (k: string)
    ensures singleKey ==> k == prefix
    ensures !singleKey ==> |k| > |prefix| && k[..|prefix|] == prefix && k[|prefix|] == ':'
    ensures !singleKey && key.Scalar? ==> k[|prefix| + 1..] == key.s
    ensures !singleKey && key.Composite? ==> k[|prefix| + 1..] == Text.Join(key.parts, "-")
  {
    if singleKey then prefix
    else if key.Composite? then prefix + ":" + Text.Join(key.parts, "-")
    else prefix + ":" + key.s
  }

  /**
   * Distinct scalar keys get distinct cache keys unless the cache is a
   * single-key one, where every key maps to the prefix.
   */
  lemma FormatKeyInjective(prefix: string, singleKey: bool, a: string, b: string)
    ensures FormatKey(prefix, singleKey, Scalar(a)) == FormatKey(prefix, singleKey, Scalar(b)) <==> singleKey || a == b
  {
    var ka, kb := FormatKey(prefix, singleKey, Scalar(a)), FormatKey(prefix, singleKey, Scalar(b));
    if !singleKey && ka == kb {
      assert a == ka[|prefix| + 1..] == kb[|prefix| + 1..] == b;
    }
  }

  /** A formatted key given back to `_format_key` gains a second prefix, so it never names itself. */
  lemma FormatTwiceDiffers(prefix: string, key: CacheKey)
    ensures FormatKey(prefix, false, Scalar(FormatKey(prefix, false, key))) != FormatKey(prefix, false, key)
  {
    var k := FormatKey(prefix, false, key);
    assert |FormatKey(prefix, false, Scalar(k))| == |prefix| + 1 + |k|;
  }

  /** `_args_format_key_list`. */
  function FormatAll(prefix: string, singleKey: bool, keys: seq<CacheKey>): (ks: seq<string>)
    ensures |ks| == |keys|
    ensures forall i :: 0 <= i < |keys| ==> ks[i] == FormatKey(prefix, singleKey, keys[i])
  {
    seq(|keys|, i requires 0 <= i < |keys| => FormatKey(prefix, singleKey, keys[i]))
  }

  /** `_set_default_key_prefix`: an empty prefix becomes the class name; any other is kept. */
  function DefaultKeyPrefix(className: string, keyPrefix: string): (p: string)
    ensures keyPrefix != "" ==> p == keyPrefix
    ensures keyPrefix == "" ==> p == className
  {
    if keyPrefix == "" then className else keyPrefix
  }

  /** Setting the default prefix twice is the same as once. */
  lemma DefaultKeyPrefixIdempotent(className: string, keyPrefix: string)
    ensures DefaultKeyPrefix(className, DefaultKeyPrefix(className, keyPrefix)) == DefaultKeyPrefix(className, keyPrefix)
  {
  }

  // ---------------------------------------------------------------------
  // The effects of the wrappers on the stored entries
  // ---------------------------------------------------------------------

  /** `cache.get(k)`: None on a miss. */
  function Lookup(entries: map<string, Entry>, k: string): Json
  {
    if k in entries then entries[k].value else JNull
  }

  /** `expire_duration or self.expire_duration`: None and 0 both fall back to the default. */
  function Timeout(duration: Option<int>, default: int): (t: int)
    ensures duration.Some? && duration.value != 0 ==> t == duration.value
    ensures duration.None? || duration.value == 0 ==> t == default
  {
    if duration.Some? && duration.value != 0 then duration.value else default
  }

  /**
   * The entries after `cache_set(key, value, duration)`. A None value is an
   * implicit delete, but `delete` formats the already formatted key again.
   */
  function AfterSet(entries: map<string, Entry>, prefix: string, singleKey: bool, default: int,
                    key: CacheKey, value: Json, duration: Option<int>): map<string, Entry>
  {
    var k := FormatKey(prefix, singleKey, key);
    if value == JNull then entries - {FormatKey(prefix, singleKey, Scalar(k))}
    else entries[k := Entry(value, Timeout(duration, default))]
  }

  /** A value that is not None is read back from the key it was set under, and no other key changes. */
  lemma SetThenGet(entries: map<string, Entry>, prefix: string, singleKey: bool, default: int,
                   key: CacheKey, value: Json, duration: Option<int>)
    requires value != JNull
    ensures var after := AfterSet(entries, prefix, singleKey, default, key, value, duration);
      Lookup(after, FormatKey(prefix, singleKey, key)) == value
      && forall k :: k != FormatKey(prefix, singleKey, key) ==> Lookup(after, k) == Lookup(entries, k)
  {
  }

  /**
   * Setting None stores nothing. A prefixed cache deletes "prefix:prefix:key",
   * so a value already stored at "prefix:key" survives; a single-key cache
   * formats to the bare prefix both times and does delete its one entry.
   */
  lemma SetNoneKeepsFormattedKey(entries: map<string, Entry>, prefix: string, singleKey: bool, default: int,
                                 key: CacheKey, duration: Option<int>)
    ensures var after := AfterSet(entries, prefix, singleKey, default, key, JNull, duration);
      var k := FormatKey(prefix, singleKey, key);
      after.Keys <= entries.Keys
      && (!singleKey ==> (k in after <==> k in entries) && (k in entries ==> after[k] == entries[k]))
      && (singleKey ==> k !in after)
  {
    if !singleKey {
      FormatTwiceDiffers(prefix, key);
    }
  }

  /**
   * The entries after `add(key, value)` on the badge cache, whose `get` and
   * `set` are `cache_get` and `cache_set`: both format the key `add` has
   * already formatted, and the write happens only when the value read is falsy.
   */
  function AfterAdd(entries: map<string, Entry>, prefix: string, singleKey: bool, default: int,
                    key: CacheKey, value: Json): map<string, Entry>
  {
    var k := FormatKey(prefix, singleKey, key);
    if !Truthy(Lookup(entries, FormatKey(prefix, singleKey, Scalar(k)))) then
      AfterSet(entries, prefix, singleKey, default, Scalar(k), value, None)
    else
      entries
  }

  /**
   * On a prefixed cache `add` never touches "prefix:key" itself: it reads
   * and writes "prefix:prefix:key", and writes nothing when that holds a
   * truthy value.
   */
  lemma AddActsOnTwicePrefixedKey(entries: map<string, Entry>, prefix: string, default: int,
                                  key: CacheKey, value: Json)
    ensures var after := AfterAdd(entries, prefix, false, default, key, value);
      var k := FormatKey(prefix, false, key);
      (k in after <==> k in entries) && (k in entries ==> after[k] == entries[k])
    ensures var kk := FormatKey(prefix, false, Scalar(FormatKey(prefix, false, key)));
      Truthy(Lookup(entries, kk)) ==> AfterAdd(entries, prefix, false, default, key, value) == entries
  {
    var k := FormatKey(prefix, false, key);
    FormatTwiceDiffers(prefix, key);
    FormatTwiceDiffers(prefix, Scalar(k));
    if value != JNull {
      var kk := FormatKey(prefix, false, Scalar(k));
      assert |kk| > |k|;
    } else {
      var kk := FormatKey(prefix, false, Scalar(k));
      var kkk := FormatKey(prefix, false, Scalar(kk));
      assert |kkk| > |kk| > |k|;
    }
  }

  /** `cache.incr(k, delta)`: the stored integer plus `delta`, keeping its timeout. */
  function AfterIncr(entries: map<string, Entry>, k: string, delta: int): (r: Result<map<string, Entry>, CacheError>)
    ensures r.Err? <==> k !in entries || !entries[k].value.JInt?
    ensures r.Ok? ==>
      r.value.Keys == entries.Keys
      && r.value[k] == Entry(JInt(entries[k].value.i + delta), entries[k].timeout)
      && forall other :: other in entries && other != k ==> r.value[other] == entries[other]
  {
    if k !in entries then Err(KeyNotFound(k))
    else match entries[k].value
      case JInt(i) => Ok(entries[k := Entry(JInt(i + delta), entries[k].timeout)])
      case _ => Err(NotAnInteger(k))
  }

  /** Decrementing by what was added restores the entries; a failed increment fails the same way again. */
  lemma IncrThenDecr(entries: map<string, Entry>, k: string, delta: int)
    ensures AfterIncr(entries, k, delta).Ok? ==> AfterIncr(AfterIncr(entries, k, delta).value, k, -delta) == Ok(entries)
    ensures AfterIncr(entries, k, delta).Err? <==> AfterIncr(entries, k, -delta).Err?
  {
    if AfterIncr(entries, k, delta).Ok? {
      var after := AfterIncr(entries, k, delta).value;
      assert AfterIncr(after, k, -delta).value == entries;
    }
  }

  // ---------------------------------------------------------------------
  // The cache object
  // ---------------------------------------------------------------------

  /** `NewBadgeCache.expire_duration`: six thirty-day months, in seconds. */
  const NewBadgeExpireDuration: int := 60 * 60 * 24 * 30 * 6

  /**
   * An instance of a `CacheBase` subclass. `key_prefix`, `single_key` and
   * `expire_duration` are the subclass's class attributes; `store` is the
   * backing cache `__init__` looks up by alias.
   */
  class KeyedCache {
    const className: string
    var keyPrefix: string
    const singleKey: bool
    const expireDuration: int
    const store: Store

    /** `__init__`: binds the backing cache, then defaults the key prefix. */
    constructor(className: string, keyPrefix: string, singleKey: bool, expireDuration: int, store: Store)
      ensures this.className == className && this.singleKey == singleKey
      ensures this.expireDuration == expireDuration && this.store == store
      ensures this.keyPrefix == DefaultKeyPrefix(className, keyPrefix)
    {
      this.className := className;
      this.keyPrefix := keyPrefix;
      this.singleKey := singleKey;
      this.expireDuration := expireDuration;
      this.store := store;
      new;
      SetDefaultKeyPrefix();
    }

    /** `_set_default_key_prefix`. */
    method SetDefaultKeyPrefix()
      modifies this
      ensures keyPrefix == DefaultKeyPrefix(className, old(keyPrefix))
    {
      if keyPrefix == "" {
        keyPrefix := className;
      }
    }

    /** `_format_key` with this cache's prefix and mode. */
    function Formatted(key: CacheKey): string
      reads this
    {
      FormatKey(keyPrefix, singleKey, key)
    }

    /** `cache_get` (and the badge cache's `get`). */
    method CacheGet(key: CacheKey) returns (data: Json)
      ensures data == Lookup(store.entries, Formatted(key))
    {
      var k := Formatted(key);
      data := if k in store.entries then store.entries[k].value else JNull;
    }

    /**
     * `cache_get_many`: a single-key cache hands the keys to the subclass's
     * `get`; otherwise the stored values of the formatted keys, and the keys
     * whose formatted key was not found, in argument order.
     */
    method CacheGetMany(keys: seq<CacheKey>) returns (r: ManyResult)
      ensures r.DelegatedToGet? <==> singleKey
      ensures r.Found? ==> r.result == GetMany(store.entries, FormatAll(keyPrefix, singleKey, keys))
      ensures r.Found? ==> r.missing == Missing(keyPrefix, keys, r.result)
    {
      if singleKey {
        return DelegatedToGet;
      }
      var keyList := FormatAll(keyPrefix, singleKey, keys);
      var result := GetMany(store.entries, keyList);
      return Found(result, Missing(keyPrefix, keys, result));
    }

    /** `cache_set` (and the badge cache's `set`). */
    method CacheSet(key: CacheKey, value: Json, duration: Option<int>)
      modifies store
      ensures store.entries == AfterSet(old(store.entries), keyPrefix, singleKey, expireDuration, key, value, duration)
    {
      var k := Formatted(key);
      if value == JNull {
        Delete(Scalar(k));
      } else {
        store.entries := store.entries[k := Entry(value, if duration.Some? && duration.value != 0 then duration.value else expireDuration)];
      }
    }

    /** `delete` (the same in `SimpleGetCache`). */
    method Delete(key: CacheKey)
      modifies store
      ensures store.entries == old(store.entries) - {Formatted(key)}
    {
      var k := Formatted(key);
      store.entries := store.entries - {k};
    }

    /** `add` on the badge cache, through its `get` and `set`. */
    method Add(key: CacheKey, value: Json)
      modifies store
      ensures store.entries == AfterAdd(old(store.entries), keyPrefix, singleKey, expireDuration, key, value)
    {
      var k := Formatted(key);
      var current := CacheGet(Scalar(k));
      if !Truthy(current) {
        CacheSet(Scalar(k), value, None);
      }
    }

    /** `incr`. */
    method Incr(key: CacheKey, delta: int) returns (r: Result<(), CacheError>)
      modifies store
      ensures AfterIncr(old(store.entries), Formatted(key), delta).Err? ==>
        r == Err(AfterIncr(old(store.entries), Formatted(key), delta).error) && store.entries == old(store.entries)
      ensures AfterIncr(old(store.entries), Formatted(key), delta).Ok? ==>
        r.Ok? && store.entries == AfterIncr(old(store.entries), Formatted(key), delta).value
    {
      r := IncrFormatted(Formatted(key), delta);
    }

    /** `decr`: the backing `incr` with the delta negated. */
    method Decr(key: CacheKey, delta: int) returns (r: Result<(), CacheError>)
      modifies store
      ensures AfterIncr(old(store.entries), Formatted(key), -delta).Err? ==>
        r == Err(AfterIncr(old(store.entries), Formatted(key), -delta).error) && store.entries == old(store.entries)
      ensures AfterIncr(old(store.entries), Formatted(key), -delta).Ok? ==>
        r.Ok? && store.entries == AfterIncr(old(store.entries), Formatted(key), -delta).value
    {
      r := IncrFormatted(Formatted(key), -delta);
    }

    /** The backing cache's `incr` on an already formatted key. */
    method IncrFormatted(k: string, delta: int) returns (r: Result<(), CacheError>)
      modifies store
      ensures AfterIncr(old(store.entries), k, delta).Err? ==>
        r == Err(AfterIncr(old(store.entries), k, delta).error) && store.entries == old(store.entries)
      ensures AfterIncr(old(store.entries), k, delta).Ok? ==>
        r.Ok? && store.entries == AfterIncr(old(store.entries), k, delta).value
    {
      if k !in store.entries {
        return Err(KeyNotFound(k));
      }
      var e := store.entries[k];
      if !e.value.JInt? {
        return Err(NotAnInteger(k));
      }
      store.entries := store.entries[k := Entry(JInt(e.value.i + delta), e.timeout)];
      return Ok(());
    }

    /**
     * `SimpleGetCache.get`: a hit without `force_db` is returned with no DB
     * call; otherwise the value is loaded with `getFromDb`, written back with
     * `cache_set` (an implicit delete when it is None) and returned.
     */
    method SimpleGet(key: CacheKey, forceDb: bool, getFromDb: CacheKey -> Json) returns (data: Json, loaded: bool)
      modifies store
      ensures loaded <==> forceDb || Lookup(old(store.entries), Formatted(key)) == JNull
      ensures !loaded ==> data == Lookup(old(store.entries), Formatted(key)) && store.entries == old(store.entries)
      ensures loaded ==>
        data == getFromDb(key)
        && store.entries == AfterSet(old(store.entries), keyPrefix, singleKey, expireDuration, key, data, None)
    {
      if forceDb {
        data := JNull;
      } else {
        data := CacheGet(key);
      }
      loaded := data == JNull;
      if loaded {
        data := getFromDb(key);
        CacheSet(key, data, None);
      }
    }
  }

  /** What `cache_get_many` returns. */
  datatype ManyResult =
    | DelegatedToGet                                              // `self.get(*args)`
    | Found(result: map<string, Json>, missing: seq<CacheKey>)    // `(result, missing)`

  /** `cache.get_many(key_list)`: the stored values of those of the keys that are present. */
  function GetMany(entries: map<string, Entry>, ks: seq<string>): (m: map<string, Json>)
    ensures forall k :: k in m <==> k in ks && k in entries
    ensures forall k :: k in m ==> m[k] == entries[k].value
  {
    map k | k in ks && k in entries :: entries[k].value
  }

  /** `[key for key in args if self._format_key(key) not in result]`. */
  function Missing(prefix: string, keys: seq<CacheKey>, result: map<string, Json>): seq<CacheKey>
  {
    if keys == [] then []
    else
      var last := keys[|keys| - 1];
      Missing(prefix, keys[..|keys| - 1], result) + (if FormatKey(prefix, false, last) !in result then [last] else [])
  }

  /** A key is reported missing exactly when it was asked for and its formatted key is not stored. */
  lemma {:induction false} MissingIff(entries: map<string, Entry>, prefix: string, keys: seq<CacheKey>, x: CacheKey)
    ensures x in Missing(prefix, keys, GetMany(entries, FormatAll(prefix, false, keys)))
      <==> x in keys && FormatKey(prefix, false, x) !in entries
  {
    MissingWithin(prefix, keys, GetMany(entries, FormatAll(prefix, false, keys)), x);
    var ks := FormatAll(prefix, false, keys);
    if x in keys {
      var i :| 0 <= i < |keys| && keys[i] == x;
      assert ks[i] == FormatKey(prefix, false, x);
    }
  }

  lemma {:induction false} MissingWithin(prefix: string, keys: seq<CacheKey>, result: map<string, Json>, x: CacheKey)
    ensures x in Missing(prefix, keys, result) <==> x in keys && FormatKey(prefix, false, x) !in result
  {
    if keys != [] {
      var init, last := keys[..|keys| - 1], keys[|keys| - 1];
      assert keys == init + [last];
      MissingWithin(prefix, init, result, x);
    }
  }

  /** The missing keys keep the order in which they were asked for. */
  lemma {:induction false} MissingIsSubsequence(prefix: string, keys: seq<CacheKey>, result: map<string, Json>)
    ensures |Missing(prefix, keys, result)| <= |keys|
    ensures Missing(prefix, keys, result) == keys <==> forall i :: 0 <= i < |keys| ==> FormatKey(prefix, false, keys[i]) !in result
  {
    if keys != [] {
      var init := keys[..|keys| - 1];
      MissingIsSubsequence(prefix, init, result);
      var m := Missing(prefix, init, result);
      if Missing(prefix, keys, result) == keys {
        assert |m| == |init| && m == init;
      }
      if forall i :: 0 <= i < |keys| ==> FormatKey(prefix, false, keys[i]) !in result {
        assert forall i :: 0 <= i < |init| ==> init[i] == keys[i];
        assert keys == init + [keys[|keys| - 1]];
      }
    }
  }
}
