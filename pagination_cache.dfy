/**
 * `PaginationCache.get`: a list of ids cached under a key (loaded from the
 * database on a miss), of which one page is resolved item by item.
 */
module PaginationCache {
  import opened Wrappers
  import opened JsonData
  import opened CacheBase

  /** `PaginationCache.expire_duration`, in seconds. */
  const PaginationExpireDuration: int := 60

  /** `max(int(n), 1)`. */
  function AtLeastOne(n: int): (r: int)
    ensures r >= 1 && r >= n
    ensures n >= 1 ==> r == n
    ensures n < 1 ==> r == 1
  {
    if n >= 1 then n else 1
  }

  function Min(a: int, b: int): int
  {
    if a <= b then a else b
  }

  /** Python's `xs[start:end]` for `0 <= start <= end`: cut at the end of the list, never raising. */
  function Slice<T>(xs: seq<T>, start: nat, end: nat): (s: seq<T>)
    requires start <= end
    ensures |s| <= end - start
    ensures s == [] <==> start >= |xs| || start == end
    ensures forall j :: 0 <= j < |s| ==> start + j < |xs| && s[j] == xs[start + j]
  {
    xs[Min(start, |xs|)..Min(end, |xs|)]
  }

  /** The first index of page `pageNum`, after both numbers are clamped. */
  function PageStart(pageNum: int, pageSize: int): nat
  {
    AtLeastOne(pageSize) * (AtLeastOne(pageNum) - 1)
  }

  /** `uuid_list[start:end]` with `start = page_size * (page_num - 1)` and `end = start + page_size`. */
  function Page<T>(xs: seq<T>, pageNum: int, pageSize: int): seq<T>
  {
    var start := PageStart(pageNum, pageSize);
    Slice(xs, start, start + AtLeastOne(pageSize))
  }

  /**
   * A page holds at most `page_size` items (at least one after clamping), is
   * empty exactly when it starts past the end, and is the run of the list
   * from its start index.
   */
  lemma PageShape<T>(xs: seq<T>, pageNum: int, pageSize: int)
    ensures |Page(xs, pageNum, pageSize)| <= AtLeastOne(pageSize)
    ensures pageSize >= 1 ==> |Page(xs, pageNum, pageSize)| <= pageSize
    ensures Page(xs, pageNum, pageSize) == [] <==> PageStart(pageNum, pageSize) >= |xs|
    ensures forall j :: 0 <= j < |Page(xs, pageNum, pageSize)| ==>
      Page(xs, pageNum, pageSize)[j] == xs[PageStart(pageNum, pageSize) + j]
    ensures PageStart(pageNum, pageSize) + AtLeastOne(pageSize) <= |xs| ==> |Page(xs, pageNum, pageSize)| == AtLeastOne(pageSize)
  {
  }

  /** Pages 1..n of a fixed size, concatenated. */
  function Pages<T>(xs: seq<T>, pageSize: int, n: nat): seq<T>
  {
    if n == 0 then [] else Pages(xs, pageSize, n - 1) + Page(xs, n, pageSize)
  }

  /**
   * Consecutive pages are contiguous and do not overlap: the first `n`
   * pages of size `s` are exactly the first `n * s` items (or the whole
   * list once it is exhausted).
   */
  lemma {:induction false} PagesArePrefix<T>(xs: seq<T>, pageSize: int, n: nat)
    requires pageSize >= 1
    ensures Pages(xs, pageSize, n) == xs[..Min(n * pageSize, |xs|)]
  {
    if n > 0 {
      PagesArePrefix(xs, pageSize, n - 1);
      var start := PageStart(n, pageSize);
      PageStartStep(n, pageSize);
      var a := Min(start, |xs|);
      var b := Min(start + pageSize, |xs|);
      assert Page(xs, n, pageSize) == xs[a..b];
      assert xs[..b] == xs[..a] + xs[a..b];
    }
  }

  /** Page `n` starts where the first `n - 1` pages end, and page `n + 1` where it ends. */
  lemma PageStartStep(n: nat, pageSize: int)
    requires n >= 1 && pageSize >= 1
    ensures PageStart(n, pageSize) == (n - 1) * pageSize
    ensures n * pageSize == PageStart(n, pageSize) + pageSize
  {
  }

  /** Enough pages cover the whole list. */
  lemma PagesCoverList<T>(xs: seq<T>, pageSize: int, n: nat)
    requires pageSize >= 1 && n * pageSize >= |xs|
    ensures Pages(xs, pageSize, n) == xs
  {
    PagesArePrefix(xs, pageSize, n);
    assert xs[..|xs|] == xs;
  }

  /**
   * What `for uuid in value[start:end]` walks over: the items of a list, or
   * the one-character strings of a string; `None` for a value Python cannot
   * slice (None, a boolean, an integer, a dict).
   */
  function Sliceable(v: Json): (r: Option<seq<Json>>)
    ensures r.Some? <==> v.JList? || v.JStr?
    ensures v.JList? ==> r == Some(v.items)
    ensures v.JStr? ==> |r.value| == |v.s| && forall i :: 0 <= i < |v.s| ==> r.value[i] == JStr([v.s[i]])
  {
    match v
    case JList(items) => Some(items)
    case JStr(str) => Some(seq(|str|, i requires 0 <= i < |str| => JStr([str[i]])))
    case _ => None
  }

  /** A page of a string is walked as the one-character strings of that page of the string. */
  lemma StringPage(str: string, pageNum: int, pageSize: int)
    ensures var page := Page(Sliceable(JStr(str)).value, pageNum, pageSize);
      |page| == |Page(str, pageNum, pageSize)|
      && forall j :: 0 <= j < |page| ==> page[j] == JStr([Page(str, pageNum, pageSize)[j]])
  {
    var chars := Sliceable(JStr(str)).value;
    PageShape(chars, pageNum, pageSize);
    PageShape(str, pageNum, pageSize);
  }

  /** Why `get` could not slice: the cached or loaded value is not a list or a string (None, typically). */
  datatype PageError = NotSubscriptable(value: Json)

  /**
   * `PaginationCache.get(key, page_num, page_size=50)`. The id list comes
   * from the cache, or on a miss from `getFromDb` and is then cached (a None
   * from the database is the implicit delete of `cache_set`); `getItem`
   * resolves each id of the requested page, in order.
   */
  method Get(cache: KeyedCache, key: CacheKey, pageNum: int,
             getFromDb: CacheKey -> Json, getItem: Json -> Json, pageSize: int := 50)
    returns (r: Result<seq<Json>, PageError>, loaded: bool)
    modifies cache.store
    ensures loaded <==> Lookup(old(cache.store.entries), cache.Formatted(key)) == JNull
    ensures !loaded ==> cache.store.entries == old(cache.store.entries)
    ensures loaded ==>
      cache.store.entries
      == AfterSet(old(cache.store.entries), cache.keyPrefix, cache.singleKey, cache.expireDuration, key, getFromDb(key), None)
    ensures var ids := if loaded then getFromDb(key) else Lookup(old(cache.store.entries), cache.Formatted(key));
      (r.Ok? <==> Sliceable(ids).Some?)
      && (r.Err? ==> r == Err(NotSubscriptable(ids)))
      && (r.Ok? ==>
            |r.value| == |Page(Sliceable(ids).value, pageNum, pageSize)|
            && forall j :: 0 <= j < |r.value| ==> r.value[j] == getItem(Page(Sliceable(ids).value, pageNum, pageSize)[j]))
  {
    var num := if pageNum >= 1 then pageNum else 1;
    var size := if pageSize >= 1 then pageSize else 1;
    var result: seq<Json> := [];
    var uuidList := cache.CacheGet(key);
    loaded := uuidList == JNull;
    if loaded {
      uuidList := getFromDb(key);
      cache.CacheSet(key, uuidList, None);
    }
    var walked := Sliceable(uuidList);
    if walked.None? {
      return Err(NotSubscriptable(uuidList)), loaded;
    }
    assert num == AtLeastOne(pageNum) && size == AtLeastOne(pageSize);
    var start := size * (num - 1);
    assert start == PageStart(pageNum, pageSize);
    var end := start + size;
    var page := Slice(walked.value, start, end);
    assert page == Page(walked.value, pageNum, pageSize);
    for j := 0 to |page|
      invariant |result| == j
      invariant forall l :: 0 <= l < j ==> result[l] == getItem(page[l])
    {
      result := result + [getItem(page[j])];
    }
    return Ok(result), loaded;
  }
}
