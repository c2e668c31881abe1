/**
 The offline-cache service worker of the kanban board (public/sw.js): a
 versioned cache seeded on install, stale versions removed on activate, and
 a network-first fetch handler that refreshes the cache on every valid
 response and falls back to it when the network is unreachable.

 The network is a parameter (`network: Url -> NetworkResult`); the browser
 cache storage is a `CacheStorage` object that the handlers change in place.
 */
module ServiceWorker {
  import opened JsString
  import opened CacheApi

  const CacheVersion: string := "v1"
  const CacheName: Name := "kanban-board-" + CacheVersion
  /** The name prefix the activate handler treats as this application's caches. */
  const StalePrefix: string := "kanban-board-"
  /** The bootstrap resources seeded on install. */
  const UrlsToCache: seq<Url> := ["/", "/index.html", "/manifest.json", "/favicon.svg"]
  /** Requests of the development live-reload server carry this in their URL. */
  const ToolingMarker: string := "browser-sync"
  const OfflineText: string := "Offline content not available"

  /** `new Response(OfflineText)`: status 200, type "default". */
  const Fallback: Response := Response(200, Default, OfflineText)

  /** A path-absolute URL such as "/index.html", resolved against the
      worker's own URL: the worker's origin (scheme, host and port, as in
      "https://example.org") followed by the path. Requests carry the
      resolved, absolute URL, and caches are keyed by it. */
  function Resolve(origin: Url, path: Url): Url
  {
    origin + path
  }

  /** `paths` resolved one by one, in order. */
  function ResolveAll(origin: Url, paths: seq<Url>): (r: seq<Url>)
    ensures |r| == |paths|
    ensures forall i :: 0 <= i < |paths| ==> r[i] == Resolve(origin, paths[i])
  {
    if paths == [] then [] else [Resolve(origin, paths[0])] + ResolveAll(origin, paths[1..])
  }

  /** The URLs `cache.addAll(urlsToCache)` fetches and stores: the bootstrap
      resources resolved against the worker's origin. */
  function SeedUrls(origin: Url): seq<Url>
  {
    ResolveAll(origin, UrlsToCache)
  }

  datatype Request = Request(httpMethod: string, url: Url)

  /** What the fetch handler does with a request: leave it to the browser,
      answer it with a response, or answer it with `undefined` (which the
      browser turns into a network error for the page). */
  datatype Reply = NotIntercepted | Respond(response: Response) | RespondEmpty

  /** The activate handler's test: a cache of this application that is not the live one. */
  predicate IsStale(name: Name)
    ensures IsStale(name) <==> StalePrefix <= name && name != CacheName
  {
    StartsWith(name, StalePrefix) && name != CacheName
  }

  /** The fetch handler's two early returns: only GET requests, and none to the
      development tooling, are intercepted. */
  predicate Intercepts(request: Request)
    ensures Intercepts(request) <==>
      request.httpMethod == "GET" && !exists i :: OccursAt(request.url, ToolingMarker, i)
  {
    IncludesIff(request.url, ToolingMarker);
    request.httpMethod == "GET" && !Includes(request.url, ToolingMarker)
  }

  /** The fetch handler's validity test: only a 200 response of type "basic"
      is cached. It is narrower than the test `cache.addAll` applies: status
      200 exactly, not any ok status, and a same-origin response only. */
  predicate IsCacheable(result: NetworkResult)
    ensures IsCacheable(result) <==>
      Accepted(result) && result.response.status == 200 && result.response.kind == Basic
  {
    result.Ok? && result.response.status == 200 && result.response.kind == Basic
  }

  /** The cache names that survive activation, in their original order. */
  function Pruned(names: seq<Name>): (r: seq<Name>)
    ensures |r| <= |names|
    ensures forall n :: n in r ==> n in names && !IsStale(n)
  {
    if names == [] then []
    else if IsStale(names[0]) then Pruned(names[1..])
    else [names[0]] + Pruned(names[1..])
  }

  /** The caches that survive activation, with their contents. */
  function PrunedStore(store: map<Name, Cache>): (r: map<Name, Cache>)
    ensures forall n :: n in r <==> n in store && !IsStale(n)
    ensures forall n :: n in r ==> r[n] == store[n]
  {
    map n | n in store && !IsStale(n) :: store[n]
  }

  /** The storage after the fetch handler's write: the live cache (created
      if need be) maps `url` to `response`, and nothing else changes. */
  function Refreshed(store: map<Name, Cache>, url: Url, response: Response): (r: map<Name, Cache>)
    ensures CacheName in r && url in r[CacheName] && r[CacheName][url] == response
    ensures forall u :: u != url ==>
      (u in r[CacheName] <==> u in CacheOf(store, CacheName))
      && (u in r[CacheName] ==> r[CacheName][u] == CacheOf(store, CacheName)[u])
    ensures forall n :: n != CacheName ==> (n in r <==> n in store) && (n in r ==> r[n] == store[n])
  {
    store[CacheName := CacheOf(store, CacheName)[url := response]]
  }

  /** Two successive writes for one URL leave only the later response. */
  lemma RefreshKeepsLatest(store: map<Name, Cache>, url: Url, first: Response, second: Response)
    ensures Refreshed(Refreshed(store, url, first), url, second) == Refreshed(store, url, second)
  {
    var once := Refreshed(store, url, second);
    var twice := Refreshed(Refreshed(store, url, first), url, second);
    assert twice[CacheName] == once[CacheName];
  }

  /** No cache holds an entry for a development-tooling URL. */
  ghost predicate FreeOfTooling(store: map<Name, Cache>)
  {
    forall n, u :: n in store && u in store[n] ==> !Includes(u, ToolingMarker)
  }

  lemma {:induction false} PrunedMembers(names: seq<Name>)
    ensures forall n :: n in Pruned(names) <==> n in names && !IsStale(n)
  {
    if names != [] {
      PrunedMembers(names[1..]);
    }
  }

  lemma {:induction false} PrunedAppend(names: seq<Name>, name: Name)
    ensures Pruned(names + [name]) == Pruned(names) + (if IsStale(name) then [] else [name])
  {
    if names == [] {
      assert [] + [name] == [name];
    } else {
      assert (names + [name])[1..] == names[1..] + [name];
      PrunedAppend(names[1..], name);
    }
  }

  /** One step of the activate loop, on the list of names: deciding on the
      `i`-th listed name keeps it or drops it. */
  lemma PrunedStep(names: seq<Name>, i: int)
    requires 0 <= i < |names|
    ensures Pruned(names[..i + 1]) + names[i + 1..]
      == if IsStale(names[i]) then Pruned(names[..i]) + names[i + 1..]
         else Pruned(names[..i]) + names[i..]
  {
    assert names[..i + 1] == names[..i] + [names[i]];
    assert names[i..] == [names[i]] + names[i + 1..];
    PrunedAppend(names[..i], names[i]);
  }

  /** Deleting the `i`-th listed name midway through the activate loop
      removes exactly that name from the list. */
  lemma DeleteStep(names: seq<Name>, i: int)
    requires Distinct(names) && 0 <= i < |names|
    ensures Without(Pruned(names[..i]) + names[i..], names[i])
      == Pruned(names[..i]) + names[i + 1..]
  {
    var name, before, after := names[i], Pruned(names[..i]), names[i + 1..];
    assert names[i..] == [name] + after;
    PrunedMembers(names[..i]);
    DistinctAt(names, i);
    WithoutAppend(before, [name] + after, name);
    WithoutAppend([name], after, name);
    WithoutAbsent(before, name);
    WithoutAbsent(after, name);
  }

  /** After the activate loop the storage holds exactly the surviving caches. */
  lemma ActivatedStore(names: seq<Name>, before: map<Name, Cache>, after: map<Name, Cache>)
    requires forall n :: n in before <==> n in names
    requires forall n :: n in after <==> n in Pruned(names)
    requires forall n :: n in after ==> n in before && after[n] == before[n]
    ensures after == PrunedStore(before)
  {
    PrunedMembers(names);
  }

  /** Activating twice removes nothing more than activating once. */
  lemma {:induction false} ActivateIdempotent(names: seq<Name>, store: map<Name, Cache>)
    ensures Pruned(Pruned(names)) == Pruned(names)
    ensures PrunedStore(PrunedStore(store)) == PrunedStore(store)
  {
    if names != [] {
      ActivateIdempotent(names[1..], store);
      if !IsStale(names[0]) {
        assert ([names[0]] + Pruned(names[1..]))[1..] == Pruned(names[1..]);
      }
    }
  }

  /** The live cache carries the application prefix, yet activation never
      removes it, and keeps its contents. */
  lemma LiveCacheSurvives(store: map<Name, Cache>)
    ensures StalePrefix <= CacheName && !IsStale(CacheName)
    ensures CacheName in store ==>
      CacheName in PrunedStore(store) && PrunedStore(store)[CacheName] == store[CacheName]
  {
    assert CacheName == StalePrefix + CacheVersion;
  }

  /** The cache of any other version of this application is stale. */
  lemma OtherVersionIsStale(version: string)
    requires version != CacheVersion
    ensures StalePrefix + version != CacheName && IsStale(StalePrefix + version)
  {
    var name := StalePrefix + version;
    assert name[..|StalePrefix|] == StalePrefix;
    assert name[|StalePrefix|..] == version;
    assert CacheName[|StalePrefix|..] == CacheVersion;
  }

  /** After activation no cache of another version of this application remains. */
  lemma OtherVersionsDropped(store: map<Name, Cache>, version: string)
    requires version != CacheVersion
    ensures StalePrefix + version !in PrunedStore(store)
  {
    OtherVersionIsStale(version);
  }

  /** Resolved against an origin that is not itself a development-tooling
      URL, none of the bootstrap resources is one. */
  lemma SeedUrlsFreeOfTooling(origin: Url)
    requires !Includes(origin, ToolingMarker)
    ensures forall u :: u in SeedUrls(origin) ==> !Includes(u, ToolingMarker)
  {
    var seeds := SeedUrls(origin);
    forall i | 0 <= i < |seeds| ensures !Includes(seeds[i], ToolingMarker) {
      var path := UrlsToCache[i];
      assert path[0] == '/' && '/' !in ToolingMarker;
      FirstCharAbsent(path, ToolingMarker);
      ConcatExcludes(origin, path, ToolingMarker);
    }
  }

  /** Replacing one cache keeps the storage free of tooling URLs when every
      URL the new cache adds is itself free of them. */
  lemma WriteKeepsFreeOfTooling(store: map<Name, Cache>, name: Name, cache: Cache)
    requires FreeOfTooling(store)
    requires forall u :: u in cache && u !in CacheOf(store, name) ==> !Includes(u, ToolingMarker)
    ensures FreeOfTooling(store[name := cache])
  {
  }

  /** Activation keeps the storage free of tooling URLs. */
  lemma ActivateKeepsFreeOfTooling(store: map<Name, Cache>)
    requires FreeOfTooling(store)
    ensures FreeOfTooling(PrunedStore(store))
  {
  }

  /** The install handler: open the live cache, then seed it with the
      bootstrap resources, resolved against the worker's `origin`, in one
      all-or-nothing batch. The cache is created even when seeding fails;
      `installed` is false then. */
  method OnInstall(caches: CacheStorage, origin: Url, network: Url -> NetworkResult) returns (installed: bool)
    requires caches.Valid()
    modifies caches
    ensures caches.Valid()
    ensures installed <==> AllAccepted(SeedUrls(origin), network)
    ensures caches.names == Opened(old(caches.names), CacheName)
    ensures caches.store == old(caches.store)[CacheName :=
      CacheOf(old(caches.store), CacheName) + if installed then Batch(SeedUrls(origin), network) else map[]]
    ensures installed ==> forall u :: u in SeedUrls(origin) ==>
      u in caches.store[CacheName] && caches.store[CacheName][u] == network(u).response
    ensures old(FreeOfTooling(caches.store)) && !Includes(origin, ToolingMarker) ==> FreeOfTooling(caches.store)
  {
    ghost var store0 := caches.store;
    var urls := SeedUrls(origin);
    caches.Open(CacheName);
    installed := caches.AddAll(CacheName, urls, network);
    ghost var seeded: Cache := if installed then Batch(urls, network) else map[];
    if installed {
      forall u | u in urls ensures network(u).Ok? {
        var i :| 0 <= i < |urls| && urls[i] == u;
        assert Accepted(network(urls[i]));
      }
    } else {
      assert CacheOf(store0, CacheName) + seeded == CacheOf(store0, CacheName);
    }
    assert caches.store == store0[CacheName := CacheOf(store0, CacheName) + seeded];
    if FreeOfTooling(store0) && !Includes(origin, ToolingMarker) {
      SeedUrlsFreeOfTooling(origin);
      WriteKeepsFreeOfTooling(store0, CacheName, CacheOf(store0, CacheName) + seeded);
    }
  }

  /** The activate handler: delete, one by one, every cache listed by
      `caches.keys()` that is stale. */
  method OnActivate(caches: CacheStorage)
    requires caches.Valid()
    modifies caches
    ensures caches.Valid()
    ensures caches.names == Pruned(old(caches.names))
    ensures caches.store == PrunedStore(old(caches.store))
    ensures forall n :: n in caches.store ==> !IsStale(n)
    ensures CacheName in old(caches.store) ==>
      CacheName in caches.store && caches.store[CacheName] == old(caches.store)[CacheName]
    ensures forall n :: n in old(caches.store) && !(StalePrefix <= n) ==>
      n in caches.store && caches.store[n] == old(caches.store)[n]
  {
    ghost var store0 := caches.store;
    var cacheNames := caches.names;
    var i := 0;
    while i < |cacheNames|
      invariant 0 <= i <= |cacheNames|
      invariant Distinct(cacheNames) && forall n :: n in store0 <==> n in cacheNames
      invariant caches.Valid()
      invariant caches.names == Pruned(cacheNames[..i]) + cacheNames[i..]
      invariant forall n :: n in caches.store ==> n in store0 && caches.store[n] == store0[n]
    {
      var name := cacheNames[i];
      if IsStale(name) {
        assert Without(caches.names, name) == Pruned(cacheNames[..i + 1]) + cacheNames[i + 1..] by {
          PrunedStep(cacheNames, i);
          DeleteStep(cacheNames, i);
        }
        var _ := caches.Delete(name);
      } else {
        assert caches.names == Pruned(cacheNames[..i + 1]) + cacheNames[i + 1..] by {
          PrunedStep(cacheNames, i);
        }
      }
      i := i + 1;
    }
    assert cacheNames[..i] == cacheNames;
    ActivatedStore(cacheNames, store0, caches.store);
  }

  /** The fetch handler, network first. `putCompletes` says whether the
      fire-and-forget write of a valid response reaches the cache; the reply
      does not depend on it. */
  method OnFetch(caches: CacheStorage, request: Request, network: Url -> NetworkResult, putCompletes: bool)
    returns (reply: Reply)
    requires caches.Valid()
    modifies caches
    ensures caches.Valid()
    // Not intercepted: the browser handles the request, storage untouched.
    ensures !Intercepts(request) ==>
      reply == NotIntercepted && caches.names == old(caches.names) && caches.store == old(caches.store)
    // A valid network response is returned as it is and written to the live cache.
    ensures Intercepts(request) && IsCacheable(network(request.url)) ==>
      && reply == Respond(network(request.url).response)
      && (if putCompletes then
            && caches.names == Opened(old(caches.names), CacheName)
            && caches.store == Refreshed(old(caches.store), request.url, network(request.url).response)
          else caches.names == old(caches.names) && caches.store == old(caches.store))
    // Any other resolved network result is returned as it is, storage untouched.
    ensures Intercepts(request) && network(request.url).Ok? && !IsCacheable(network(request.url)) ==>
      reply == Respond(network(request.url).response)
      && caches.names == old(caches.names) && caches.store == old(caches.store)
    ensures Intercepts(request) && network(request.url).NoResponse? ==>
      reply == RespondEmpty && caches.names == old(caches.names) && caches.store == old(caches.store)
    // Network unreachable: the first cached entry, else the offline text; storage untouched.
    ensures Intercepts(request) && network(request.url).Fail? ==>
      && reply == (match MatchIn(old(caches.names), old(caches.store), request.url)
                   case Some(cached) => Respond(cached)
                   case None => Respond(Fallback))
      && caches.names == old(caches.names) && caches.store == old(caches.store)
    ensures old(FreeOfTooling(caches.store)) ==> FreeOfTooling(caches.store)
  {
    if request.httpMethod != "GET" {
      return NotIntercepted;
    }
    if Includes(request.url, ToolingMarker) {
      return NotIntercepted;
    }
    var result := network(request.url);
    match result
    case Ok(response) =>
      if response.status != 200 || response.kind != Basic {
        return Respond(response);
      }
      if putCompletes {
        caches.Open(CacheName);
        caches.Put(CacheName, request.url, response);
      }
      return Respond(response);
    case NoResponse =>
      return RespondEmpty;
    case Fail =>
      var cached := caches.Match(request.url);
      match cached
      case Some(hit) =>
        return Respond(hit);
      case None =>
        return Respond(Fallback);
  }

  /** An upgrade from another version, then a page load while offline: the
      other version's cache, listed first, is gone, so the page is served
      from this version's seed rather than from the old copy. The page is
      requested by its absolute URL, as a browser reports it. */
  method UpgradeScenario(origin: Url, version: string, page: Response, stalePage: Response)
    requires !Includes(origin, ToolingMarker)
    requires version != CacheVersion
  {
    var caches := new CacheStorage();
    var previous := StalePrefix + version;
    var url := Resolve(origin, UrlsToCache[1]);
    OtherVersionIsStale(version);
    caches.Open(previous);
    caches.Put(previous, url, stalePage);
    var online := (u: Url) => Ok(page);
    var installed := OnInstall(caches, origin, online);
    assert installed <==> Accepted(Ok(page));
    if !installed {
      return;
    }
    assert caches.names == [previous, CacheName] by {
      assert CacheName !in [previous];
    }
    assert url == SeedUrls(origin)[1];
    assert url in caches.store[CacheName] && caches.store[CacheName][url] == page;
    ghost var seeded := caches.store[CacheName];
    OnActivate(caches);
    assert caches.store[CacheName] == seeded;
    assert Pruned([CacheName]) == [CacheName] by {
      assert [CacheName][1..] == [];
    }
    assert Pruned([previous, CacheName]) == Pruned([CacheName]) by {
      assert [previous, CacheName][1..] == [CacheName];
    }
    var request := Request("GET", url);
    assert Intercepts(request) by {
      SeedUrlsFreeOfTooling(origin);
    }
    var offline := (u: Url) => Fail;
    var reply := OnFetch(caches, request, offline, true);
    assert reply == Respond(page);
  }
}
