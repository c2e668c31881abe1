/**
 The browser's Cache Storage, reduced to the behaviour the service worker
 depends on (W3C Service Workers specification, section 5.4 "Cache" and
 section 5.5 "CacheStorage"): an ordered collection of named caches, each a
 map from request URL to a stored response. Only the effect of each
 operation is modelled, not its promise plumbing.
 */
module CacheApi {

  type Url = string
  type Name = string

  datatype Option<T> = None | Some(value: T)

  /** `Response.type` of the Fetch standard. */
  datatype ResponseType = Basic | Cors | Default | Error | Opaque | OpaqueRedirect

  /** A response as the worker sees it; headers are not modelled, the body is opaque text. */
  datatype Response = Response(status: int, kind: ResponseType, body: string)

  /** One named cache: request URL to stored response. */
  type Cache = map<Url, Response>

  /** What a call to `fetch` settles to: a response, a resolved value that is no
      response at all, or a rejection (the network is unreachable). */
  datatype NetworkResult = Ok(response: Response) | NoResponse | Fail

  /** No name is listed twice. */
  predicate Distinct(s: seq<Name>)
  {
    s == [] || (s[0] !in s[1..] && Distinct(s[1..]))
  }

  lemma {:induction false} DistinctAppend(s: seq<Name>, name: Name)
    requires Distinct(s) && name !in s
    ensures Distinct(s + [name])
  {
    if s != [] {
      assert (s + [name])[1..] == s[1..] + [name];
      DistinctAppend(s[1..], name);
    }
  }

  /** In a list without repeats, the `i`-th name occurs neither before nor after position `i`. */
  lemma {:induction false} DistinctAt(s: seq<Name>, i: int)
    requires Distinct(s) && 0 <= i < |s|
    ensures s[i] !in s[..i] && s[i] !in s[i + 1..]
  {
    if i > 0 {
      DistinctAt(s[1..], i - 1);
      assert s[1..][..i - 1] == s[1..i];
      assert s[..i] == [s[0]] + s[1..i];
      assert s[1..][i..] == s[i + 1..];
    }
  }

  /** The cache stored under `name`, or the empty cache `open` would create. */
  function CacheOf(store: map<Name, Cache>, name: Name): Cache
  {
    if name in store then store[name] else map[]
  }

  /** The list of cache names after `caches.open(name)`: a new name goes last. */
  function Opened(names: seq<Name>, name: Name): seq<Name>
  {
    if name in names then names else names + [name]
  }

  /** The list of cache names after `caches.delete(name)`. */
  function Without(names: seq<Name>, name: Name): seq<Name>
  {
    if names == [] then []
    else if names[0] == name then Without(names[1..], name)
    else [names[0]] + Without(names[1..], name)
  }

  lemma {:induction false} WithoutMembers(names: seq<Name>, name: Name)
    ensures forall n :: n in Without(names, name) <==> n in names && n != name
  {
    if names != [] {
      WithoutMembers(names[1..], name);
    }
  }

  lemma {:induction false} WithoutDistinct(names: seq<Name>, name: Name)
    requires Distinct(names)
    ensures Distinct(Without(names, name))
  {
    if names != [] {
      WithoutDistinct(names[1..], name);
      WithoutMembers(names[1..], name);
      if names[0] != name {
        assert ([names[0]] + Without(names[1..], name))[1..] == Without(names[1..], name);
      }
    }
  }

  lemma {:induction false} WithoutAppend(a: seq<Name>, b: seq<Name>, name: Name)
    ensures Without(a + b, name) == Without(a, name) + Without(b, name)
  {
    if a == [] {
      assert a + b == b;
    } else {
      assert (a + b)[1..] == a[1..] + b;
      WithoutAppend(a[1..], b, name);
    }
  }

  lemma {:induction false} WithoutAbsent(names: seq<Name>, name: Name)
    requires name !in names
    ensures Without(names, name) == names
  {
    if names != [] {
      WithoutAbsent(names[1..], name);
    }
  }

  /** The test `cache.addAll` applies to each fetched response before it
      stores anything: the fetch resolved, the response is not a network
      error, and its status is an ok status (200 to 299) other than 206. */
  predicate Accepted(result: NetworkResult)
  {
    && result.Ok?
    && result.response.kind != Error
    && 200 <= result.response.status <= 299
    && result.response.status != 206
  }

  predicate AllAccepted(urls: seq<Url>, network: Url -> NetworkResult)
  {
    forall i :: 0 <= i < |urls| ==> Accepted(network(urls[i]))
  }

  /** The entries `cache.addAll(urls)` writes in one batch. */
  function Batch(urls: seq<Url>, network: Url -> NetworkResult): Cache
  {
    map u | u in urls && network(u).Ok? :: network(u).response
  }

  /** `caches.match(url)`: the entry of the first cache, in creation order, that holds `url`. */
  function MatchIn(names: seq<Name>, store: map<Name, Cache>, url: Url): Option<Response>
  {
    if names == [] then None
    else if url in CacheOf(store, names[0]) then Some(CacheOf(store, names[0])[url])
    else MatchIn(names[1..], store, url)
  }

  /** The `k`-th cache in creation order holds `url`. */
  ghost predicate HitAt(names: seq<Name>, store: map<Name, Cache>, url: Url, k: int)
  {
    0 <= k < |names| && url in CacheOf(store, names[k])
  }

  /** `caches.match` finds an entry exactly when some cache holds the URL, and
      then it is the entry of the earliest such cache. */
  lemma {:induction false} MatchInFirstHit(names: seq<Name>, store: map<Name, Cache>, url: Url)
    ensures MatchIn(names, store, url).Some? <==> exists k :: HitAt(names, store, url, k)
    ensures MatchIn(names, store, url).Some? ==>
      exists k :: HitAt(names, store, url, k)
        && MatchIn(names, store, url).value == CacheOf(store, names[k])[url]
        && forall j :: 0 <= j < k ==> !HitAt(names, store, url, j)
  {
    if names == [] {
    } else if url in CacheOf(store, names[0]) {
      assert HitAt(names, store, url, 0);
    } else {
      MatchInFirstHit(names[1..], store, url);
      forall k | HitAt(names, store, url, k) ensures HitAt(names[1..], store, url, k - 1) {
      }
      if MatchIn(names[1..], store, url).Some? {
        var k :| HitAt(names[1..], store, url, k)
          && MatchIn(names[1..], store, url).value == CacheOf(store, names[1..][k])[url]
          && forall j :: 0 <= j < k ==> !HitAt(names[1..], store, url, j);
        assert HitAt(names, store, url, k + 1);
        forall j | 0 <= j < k + 1 ensures !HitAt(names, store, url, j) {
          if j > 0 {
            assert !HitAt(names[1..], store, url, j - 1);
          }
        }
      }
    }
  }

  /** The caches of one origin. `names` is the creation order of the caches,
      which `caches.keys()` reports and `caches.match` searches in. */
  class CacheStorage {
    var names: seq<Name>
    var store: map<Name, Cache>

    ghost predicate Valid()
      reads this
    {
      Distinct(names) && forall n :: n in store <==> n in names
    }

    /** An origin with no caches yet. */
    constructor ()
      ensures Valid() && names == [] && store == map[]
    {
      names := [];
      store := map[];
    }

    /** `caches.open(name)`: the existing cache, or a new empty one created last. */
    method Open(name: Name)
      requires Valid()
      modifies this
      ensures Valid()
      ensures names == Opened(old(names), name)
      ensures store == old(store)[name := CacheOf(old(store), name)]
    {
      if name !in store {
        DistinctAppend(names, name);
        names := names + [name];
        store := store[name := map[]];
      }
    }

    /** `caches.delete(name)`: removes the cache and reports whether there was one. */
    method Delete(name: Name) returns (deleted: bool)
      requires Valid()
      modifies this
      ensures Valid()
      ensures deleted <==> name in old(store)
      ensures names == Without(old(names), name)
      ensures store == old(store) - {name}
    {
      deleted := name in store;
      WithoutMembers(names, name);
      WithoutDistinct(names, name);
      names := Without(names, name);
      store := store - {name};
    }

    /** `cache.put(url, response)` on the cache `name`: overwrites any entry for the URL. */
    method Put(name: Name, url: Url, response: Response)
      requires Valid() && name in store
      modifies this
      ensures Valid()
      ensures names == old(names)
      ensures store == old(store)[name := old(store)[name][url := response]]
    {
      store := store[name := store[name][url := response]];
    }

    /** `cache.addAll(urls)` on the cache `name`: fetches every URL, and only
        when every response is accepted writes all of them; otherwise the
        cache is left as it was and the call fails. */
    method AddAll(name: Name, urls: seq<Url>, network: Url -> NetworkResult) returns (ok: bool)
      requires Valid() && name in store
      modifies this
      ensures Valid()
      ensures names == old(names)
      ensures ok <==> AllAccepted(urls, network)
      ensures store == if ok then old(store)[name := old(store)[name] + Batch(urls, network)]
                       else old(store)
    {
      var batch: Cache := map[];
      var i := 0;
      while i < |urls|
        invariant 0 <= i <= |urls|
        invariant AllAccepted(urls[..i], network)
        invariant batch == Batch(urls[..i], network)
      {
        var result := network(urls[i]);
        if !Accepted(result) {
          return false;
        }
        assert urls[..i + 1] == urls[..i] + [urls[i]];
        batch := batch[urls[i] := result.response];
        i := i + 1;
      }
      assert urls[..i] == urls;
      store := store[name := store[name] + batch];
      ok := true;
    }

    /** `caches.match(url)`: searches the caches in creation order. */
    method Match(url: Url) returns (r: Option<Response>)
      requires Valid()
      ensures r == MatchIn(names, store, url)
    {
      var i := 0;
      while i < |names|
        invariant 0 <= i <= |names|
        invariant MatchIn(names, store, url) == MatchIn(names[i..], store, url)
      {
        assert names[i..][1..] == names[i + 1..];
        var cache := store[names[i]];
        if url in cache {
          return Some(cache[url]);
        }
        i := i + 1;
      }
      return None;
    }
  }
}
