# Offline cache service worker of the kanban board, in Dafny

This project models `public/sw.js`, the service worker that keeps the kanban
board usable offline. It has three event handlers over the browser's cache
storage:

- **install** opens the versioned cache `kanban-board-v1` and seeds it with
  `/`, `/index.html`, `/manifest.json` and `/favicon.svg` in one
  all-or-nothing batch;
- **activate** deletes every cache whose name starts with `kanban-board-`
  and is not the live cache;
- **fetch** is network first. It leaves non-GET requests and requests to the
  `browser-sync` development server alone. It returns every network response
  as it is, and stores a copy of it in the live cache when its status is 200
  and its type is `basic`. When the network is unreachable it answers from
  the caches, or else with the text `Offline content not available`.

Files:

- `jsstring.dfy`, module `JsString`: `startsWith` and `includes` on strings,
  with `includes` proved equal to "the needle occurs at some position".
- `cache_api.dfy`, module `CacheApi`: the browser cache storage as a class
  `CacheStorage`. It holds the cache names in creation order (`names`) and
  their contents (`store`), and its methods change them in place. The
  semantics follow the W3C Service Workers specification: `open` creates a
  missing cache last, `delete` removes one, `put` overwrites the entry for a
  URL, `addAll` is all-or-nothing (section 5.4.4), and `match` searches every
  cache in creation order and returns the first hit (section 5.5.1).
- `service_worker.dfy`, module `ServiceWorker`: the constants, the decision
  predicates of the handlers, the three handlers as methods on a
  `CacheStorage`, and lemmas about the specification functions they are
  proved against.

The network is a parameter `network: Url -> NetworkResult`. For a URL it
gives a response (`Ok`), a resolved value that is no response (`NoResponse`),
or a rejection (`Fail`). The fetch handler's fire-and-forget `cache.put` is
an optional write: the parameter `putCompletes` says whether it lands, and the
reply does not depend on it.

The install handler's bootstrap list holds path-absolute URLs such as
`/index.html`. `cache.addAll` resolves each against the worker's own URL, so
the entries it stores are keyed by absolute URLs such as
`https://example.org/index.html`, which is also the form every fetched
request carries. The model takes the worker's origin as a parameter
`origin` and resolves the list as `origin + path` (`ServiceWorker.Resolve`).

Points of the code the model keeps as written:

- An offline request is answered by `caches.match` (public/sw.js:78), which
  searches every cache of the origin, not only the live one. The model does
  the same.
- Only a response whose status is exactly 200 and whose type is `basic` is
  written to the cache (public/sw.js:62).
- `caches.open` runs before `addAll` (public/sw.js:15-18). A failed install
  therefore creates the live cache empty if it was missing, and leaves it as
  it was otherwise.

## Model

| member | source | states |
|---|---|---|
| `JsString.StartsWith` | public/sw.js:33 | `name.startsWith(prefix)` holds exactly when `prefix` is a prefix of `name` |
| `JsString.IncludesIff` | public/sw.js:54 | `url.includes(needle)` holds exactly when the needle occurs at some position of the URL |
| `CacheApi.MatchInFirstHit` | public/sw.js:78-82 | `caches.match` finds an entry exactly when some cache holds the URL, and the entry it returns is the one of the earliest such cache in creation order |
| `CacheApi.CacheStorage.Match` | public/sw.js:78 | the lookup loop over the caches in creation order returns what `caches.match` specifies and changes nothing |
| `CacheApi.CacheStorage.Open` | public/sw.js:15 | opening keeps an existing cache untouched and otherwise creates an empty one, listed last |
| `CacheApi.CacheStorage.Delete` | public/sw.js:35 | deleting removes exactly that cache, keeps the order of the others, and reports whether it existed |
| `CacheApi.CacheStorage.Put` | public/sw.js:71 | `cache.put` overwrites the entry for the URL in that cache and changes nothing else |
| `CacheApi.CacheStorage.AddAll` | public/sw.js:18 | `addAll` succeeds exactly when every fetched response is accepted, and then adds all of them; otherwise storage is unchanged |
| `ServiceWorker.IsStale` | public/sw.js:33 | a cache is stale exactly when its name has the `kanban-board-` prefix and is not the live cache name |
| `ServiceWorker.IsCacheable` | public/sw.js:62 | a fetched response is written to the cache exactly when `addAll` would accept it and, beyond that, its status is exactly 200 and its type is `basic` |
| `ServiceWorker.Pruned` | public/sw.js:30-38 | the names that survive activation are no more than those listed, and every survivor was listed and is not stale |
| `ServiceWorker.PrunedStore` | public/sw.js:30-38 | the caches that survive activation are exactly the listed caches that are not stale, each with its contents unchanged |
| `ServiceWorker.ResolveAll` | public/sw.js:18 | resolving the bootstrap list keeps its length and order, and entry `i` is path `i` resolved against the origin |
| `JsString.ConcatExcludes` | public/sw.js:54 | two strings without the needle, joined where the second starts with a character the needle lacks, give a string without the needle |
| `ServiceWorker.Intercepts` | public/sw.js:49-56 | a request is intercepted exactly when its method is GET and `browser-sync` occurs nowhere in its URL |
| `ServiceWorker.Refreshed` | public/sw.js:69-72 | after the write, the live cache maps the URL to the response; its other entries and every other cache are unchanged |
| `ServiceWorker.RefreshKeepsLatest` | public/sw.js:71 | two successful fetches of one URL leave one entry, holding the later response |
| `ServiceWorker.PrunedMembers` | public/sw.js:30-38 | a cache name survives activation exactly when it was listed and is not stale |
| `ServiceWorker.ActivateIdempotent` | public/sw.js:30-38 | activating a second time deletes nothing more: the names and contents equal those after one activation |
| `ServiceWorker.LiveCacheSurvives` | public/sw.js:33 | the live cache name has the `kanban-board-` prefix, yet it is not stale, so activation keeps it with its contents |
| `ServiceWorker.OtherVersionIsStale` | public/sw.js:33 | the cache name `kanban-board-` plus any version other than `v1` differs from the live name and is stale |
| `ServiceWorker.OtherVersionsDropped` | public/sw.js:30-38 | after activation no cache named `kanban-board-` plus any version other than `v1` remains |
| `ServiceWorker.SeedUrlsFreeOfTooling` | public/sw.js:5-10 | resolved against an origin that does not contain `browser-sync`, none of the four bootstrap URLs contains it |
| `ServiceWorker.ActivateKeepsFreeOfTooling` | public/sw.js:30-38 | if no cache held a `browser-sync` URL before activation, none holds one after |
| `ServiceWorker.OnInstall` | public/sw.js:13-23 | install opens the live cache; it succeeds exactly when the responses for all four bootstrap URLs, resolved against the worker's origin, are accepted, and then the live cache maps each resolved URL to its response; on failure the live cache is only created if it was missing; no `browser-sync` URL is added when the origin contains none |
| `ServiceWorker.OnActivate` | public/sw.js:26-44 | activate leaves exactly the non-stale caches, in their order and with their contents; the live cache and every cache without the prefix survive unchanged |
| `ServiceWorker.OnFetch` | public/sw.js:47-88 | non-GET and `browser-sync` requests are not intercepted and storage is unchanged. A 200 `basic` response is returned as it is and, when the write lands, written to the live cache under the URL. Any other response is returned as it is, and a missing one gives an empty reply, with storage unchanged. On a network failure the first cached entry is returned, else the offline text, with storage unchanged. No `browser-sync` URL is ever stored |

## Left out

- `src/firebase.js` is not part of this model. It only calls into a vendor SDK that is not visible here, and it has no logic of its own.
- `self.skipWaiting()` and `clients.claim()` (public/sw.js:22, 41) are not modelled. They control the browser lifecycle and change no data.
- `console.log` calls are not modelled.
- Promise scheduling, `event.waitUntil` and `event.respondWith` timing, and concurrent fetches are not modelled. Each handler runs to completion. The fire-and-forget `cache.put` either lands within the handler or not at all.
- `CacheApi.CacheStorage.Delete`: a delete of a listed cache always succeeds. The rare failure of a single `caches.delete`, which the source ignores, is not modelled.
- `CacheApi.CacheStorage.AddAll`: the fetches run one after another and stop at the first rejected response. The browser runs them in parallel, but either way nothing is written unless all are accepted. The URL-scheme check, the `Vary: *` check and the duplicate-request check of `addAll` are not modelled.
- `ServiceWorker.Resolve`: only the resolution of a path-absolute URL against the worker's origin is modelled, which is all the bootstrap list needs. General URL parsing and normalisation are not modelled, and `origin` stands for an already serialised origin.
- Requests are keyed by URL alone. Headers, `Vary` matching, query and fragment handling, and `Response` headers are not modelled. Response bodies are opaque text, and `response.clone()` is the identity.
- What the browser does after a failed install (it discards the new worker) is not modelled. `OnInstall` only reports the failure.
- `OnFetch`: when `putCompletes` is false, no write lands, and the `caches.open` inside the fire-and-forget chain is not modelled either.
