/**
 * The read-through page cache shared by `get_recent_contacts` and
 * `get_recent_tickets`: the cache key is built from the resource, the page and
 * the page size; a truthy cached value is decoded and returned without asking
 * the backend; on a miss the backend is asked once, a successful answer is
 * cached for the default lifetime and returned, and a backend error yields
 * the empty list and writes nothing.
 *
 * The backend's `get_page` call is a function parameter `api`; the requests
 * an operation sends to it are returned.
 */
module PageCache {
  import opened Wrappers
  import opened Types
  import opened Strings
  import opened Cache

  /** A `get_page(limit=..., after=...)` request to the backend. */
  datatype PageRequest = PageRequest(limit: int, after: int)

  type Backend = PageRequest -> Result<seq<Record>, ApiError>

  /** The f-string `"{resource}_page_{page}_size_{page_size}"`. */
  function PageKey(resource: string, page: int, pageSize: int): (k: string)
    ensures resource + "_page_" < k
  {
    resource + "_page_" + IntToString(page) + "_size_" + IntToString(pageSize)
  }

  /** The backend request a miss sends: `limit = page_size`, `after = page * page_size`. */
  function RequestFor(page: int, pageSize: int): (q: PageRequest)
    ensures q.limit == pageSize
    ensures q.after == page * pageSize
  {
    PageRequest(pageSize, page * pageSize)
  }

  /** The answer of one page query, the store it leaves and the backend requests it sent. */
  datatype Served = Served(result: Result<seq<Record>, Error>, store: Store, calls: seq<PageRequest>)

  /** One page query at time `now` against store `m`. */
  function Serve(m: Store, resource: string, page: int, pageSize: int, api: Backend, now: int): (s: Served)
    ensures var cached := Get(m, PageKey(resource, page, pageSize), now);
            s.calls == [] <==> cached.Some? && Truthy(cached.value)
    ensures s.calls == [] || s.calls == [RequestFor(page, pageSize)]
    ensures s.result.Failure? ==> s.result.error.ValueError? && s.calls == []
    ensures s.calls == [] ==> s.store == m
    ensures s.store == m || s.store == Put(m, PageKey(resource, page, pageSize), PageJson(s.result.value), CacheTimeout, now)
  {
    var key := PageKey(resource, page, pageSize);
    var cached := Get(m, key, now);
    if cached.Some? && Truthy(cached.value) then
      if cached.value.PageJson? then Served(Success(cached.value.records), m, [])
      else Served(Failure(ValueError("cached page is not valid JSON")), m, [])
    else
      var request := RequestFor(page, pageSize);
      match api(request)
      case Success(records) => Served(Success(records), Put(m, key, PageJson(records), CacheTimeout, now), [request])
      case Failure(_) => Served(Success([]), m, [request])
  }

  /** The page query, run against the shared store. */
  method GetRecentPage(store: RedisClient, resource: string, page: int, pageSize: int, api: Backend, now: int)
    returns (r: Result<seq<Record>, Error>, calls: seq<PageRequest>)
    modifies store
    ensures Served(r, store.entries, calls) == Serve(old(store.entries), resource, page, pageSize, api, now)
  {
    var key := PageKey(resource, page, pageSize);
    var cached := store.GetCache(key, now);
    if cached.Some? && Truthy(cached.value) {
      if cached.value.PageJson? {
        return Success(cached.value.records), [];
      }
      return Failure(ValueError("cached page is not valid JSON")), [];
    }
    var request := RequestFor(page, pageSize);
    match api(request)
    case Success(records) =>
      store.SetCache(key, PageJson(records), now);
      r, calls := Success(records), [request];
    case Failure(_) =>
      r, calls := Success([]), [request];
  }

  // ---- Cache keys ----

  /** Distinct `(page, page_size)` pairs of one resource never share a cache entry. */
  lemma PageKeyInjective(resource: string, page1: int, size1: int, page2: int, size2: int)
    requires PageKey(resource, page1, size1) == PageKey(resource, page2, size2)
    ensures page1 == page2 && size1 == size2
  {
    var prefix := resource + "_page_";
    var a, c := IntToString(page1), "_size_" + IntToString(size1);
    var b, d := IntToString(page2), "_size_" + IntToString(size2);
    assert PageKey(resource, page1, size1) == prefix + (a + c);
    assert PageKey(resource, page2, size2) == prefix + (b + d);
    KeySuffixesInjective(prefix, page1, size1, page2, size2);
  }

  /** The numbers printed after a common prefix are read back from the key's two underscores. */
  lemma KeySuffixesInjective(prefix: string, page1: int, size1: int, page2: int, size2: int)
    requires prefix + (IntToString(page1) + ("_size_" + IntToString(size1)))
          == prefix + (IntToString(page2) + ("_size_" + IntToString(size2)))
    ensures page1 == page2 && size1 == size2
  {
    var a, c := IntToString(page1), "_size_" + IntToString(size1);
    var b, d := IntToString(page2), "_size_" + IntToString(size2);
    assert a + c == (prefix + (a + c))[|prefix|..] == (prefix + (b + d))[|prefix|..] == b + d;
    SplitAtUnderscore(a, c, b, d);
    assert IntToString(size1) == c[6..] == d[6..] == IntToString(size2);
    IntToStringInjective(page1, page2);
    IntToStringInjective(size1, size2);
  }

  /** Contact pages, ticket pages and the token record live under disjoint keys. */
  lemma KeyNamespacesDisjoint(page1: int, size1: int, page2: int, size2: int)
    ensures PageKey("contacts", page1, size1) != PageKey("tickets", page2, size2)
    ensures PageKey("contacts", page1, size1) != TokenKey
    ensures PageKey("tickets", page2, size2) != TokenKey
  {
    assert PageKey("contacts", page1, size1)[0] == 'c';
    assert PageKey("tickets", page2, size2)[0] == 't';
    assert TokenKey[0] == 'h';
  }

  // ---- Hit, miss and error ----

  /** A hit answers the decoded cached page, sends nothing and changes nothing. */
  lemma HitSkipsBackend(m: Store, resource: string, page: int, pageSize: int, api: Backend, now: int, records: seq<Record>)
    requires Get(m, PageKey(resource, page, pageSize), now) == Some(PageJson(records))
    ensures Serve(m, resource, page, pageSize, api, now) == Served(Success(records), m, [])
  {
  }

  /**
   * A miss sends exactly one request; a successful answer is cached under the
   * key for 3600 seconds and returned, a backend error gives `[]` and leaves
   * the store as it was.
   */
  lemma MissFetchesOnce(m: Store, resource: string, page: int, pageSize: int, api: Backend, now: int)
    requires Get(m, PageKey(resource, page, pageSize), now).None?
    ensures var s := Serve(m, resource, page, pageSize, api, now);
            var answer := api(RequestFor(page, pageSize));
            && s.calls == [RequestFor(page, pageSize)]
            && (answer.Success? ==> s.result == Success(answer.value))
            && (answer.Success? ==>
                  s.store == Put(m, PageKey(resource, page, pageSize), PageJson(answer.value), CacheTimeout, now))
            && (answer.Failure? ==> s.result == Success([]) && s.store == m)
  {
  }

  /** A page query writes at most its own key. */
  lemma ServeTouchesOnlyItsKey(m: Store, resource: string, page: int, pageSize: int, api: Backend, now: int, k: string)
    requires k != PageKey(resource, page, pageSize)
    ensures var m' := Serve(m, resource, page, pageSize, api, now).store;
            (k in m' <==> k in m) && (k in m ==> m'[k] == m[k])
  {
  }

  /**
   * Two identical queries within the lifetime of the entry the first one
   * cached: the second is a hit with the same data, so the backend is asked
   * once in all.
   */
  lemma RepeatedQueryIsHit(m: Store, resource: string, page: int, pageSize: int, api: Backend, now: int, later: int)
    requires now <= later < now + CacheTimeout
    requires Get(m, PageKey(resource, page, pageSize), now).None?
    requires api(RequestFor(page, pageSize)).Success?
    ensures var first := Serve(m, resource, page, pageSize, api, now);
            var second := Serve(first.store, resource, page, pageSize, api, later);
            && |first.calls| + |second.calls| == 1
            && second.result == first.result
            && second.store == first.store
  {
  }

  /**
   * Changing the page or the page size forces a fresh backend request: caching
   * one page never makes another page a hit.
   */
  lemma OtherPageStillMisses(m: Store, resource: string, page1: int, size1: int, page2: int, size2: int,
                             api: Backend, now: int, later: int)
    requires (page1, size1) != (page2, size2)
    requires Get(m, PageKey(resource, page2, size2), later).None?
    ensures var first := Serve(m, resource, page1, size1, api, now);
            Serve(first.store, resource, page2, size2, api, later).calls == [RequestFor(page2, size2)]
  {
    var k1, k2 := PageKey(resource, page1, size1), PageKey(resource, page2, size2);
    if k1 == k2 {
      PageKeyInjective(resource, page1, size1, page2, size2);
      assert false;
    }
    ServeTouchesOnlyItsKey(m, resource, page1, size1, api, now, k2);
  }
}
