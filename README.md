# Flutter web service worker: cache lifecycle model

This project models the core of `flutter_service_worker.js`. That is the service worker a Flutter web build ships to keep the application's assets available offline. It covers:

- **Install** stages the application shell (`CORE`) in TEMP (`flutter-temp-cache`).
- **Activate** upgrades the served cache ACTIVE (`flutter-app-cache`) to the new resource manifest (`RESOURCES`, key to content fingerprint), using the manifest recorded by the previous worker in `flutter-app-manifest`:
  - With no record, ACTIVE is rebuilt from TEMP.
  - With a record, ACTIVE keeps only the entries whose key the new manifest lists at the recorded fingerprint. TEMP is then copied over it, and TEMP always wins.
  - TEMP is then deleted and the new manifest is recorded.
  - Any failure deletes all three caches.
- **Fetch** derives a resource key from the request URL and routes the request:
  - to the browser, when the request is not a GET or its key is not listed;
  - online-first, for the root key `/`;
  - cache-first, for every other listed key.
- **`downloadOffline`** fetches every manifest key that ACTIVE does not hold yet.

Caches are maps from request URL to response, and the record is an optional manifest. The three live in the class `Lifecycle.Caches`. The build-time configuration (origin, `RESOURCES`, `CORE`) is an immutable `Lifecycle.Config` passed to each handler. The network is a parameter:
- a `Fetched` outcome for one fetch (any HTTP response, or a network error);
- a function from URL to `Fetched` for a batch.

Files:
- `http.dfy`: responses, fetch outcomes, and `cache.addAll` as one atomic, all-or-nothing step.
- `keys.dfy`: the two key derivations, `String.prototype.indexOf`/`split`, and the URL a key resolves to.
- `lookup.dfy`: manifest lookup, both as own-property lookup and as the plain-object lookup the source performs.
- `routing.dfy`: the routing decision.
- `serving.dfy`: cache-first, online-first and the fetch handler, as functions returning the answer and the new ACTIVE.
- `lifecycle.dfy`: the `Caches` class with its handlers, the `downloadOffline` loops, and the lemmas about activation and `downloadOffline`.

The model follows the code in these places, where a reader might expect otherwise:
- `index.html` is a resource of its own and is routed cache-first. Only the root key `/` (the bare origin, `origin/`, `origin/#...`, `origin/?v=...`) is online-first. So a request for `/index.html?v=42` is answered without the network when a copy is stored under that exact URL (`Routing.IndexHtmlIsCacheFirst`). The cache is matched by the full URL, so the `origin/index.html` entry staged at install does not answer it.
- Online-first stores whatever response the network gives, a 404 included. It does not check `response.ok`; cache-first does.
- At activate time the key is the URL with its first `origin.length + 1` characters dropped. Nothing checks that the URL starts with the origin, and the `?v=` query is not cut, so the two derivations differ (`Keys.VersionedRootKeysDiffer`).
- The `origin` used by `downloadOffline` is the worker global's `origin`, not a local variable. The model passes the same origin as the other handlers.

## Model

| member | source | states |
|---|---|---|
| `Keys.Substring` | flutter_service_worker.js:161 | `substring(n)`: the characters from index `n` on, and the empty string when `n` is past the end |
| `Keys.RequestUrl` | flutter_service_worker.js:129 | the URL `new Request(key)` names starts with `origin/`, and past it is the key itself, except for the root key |
| `Keys.IndexOfFrom` | flutter_service_worker.js:202 | the first index at or after `from` where the pattern occurs, or -1 when there is none |
| `Keys.IndexOf` | flutter_service_worker.js:202 | `indexOf`: -1 iff the pattern occurs nowhere; otherwise the first occurrence |
| `Keys.CutVersion` | flutter_service_worker.js:202-204 | `split('?v=')[0]` is a prefix of the input, holds no `?v=`, is the whole input when there is none, and is followed by the first `?v=` otherwise |
| `Keys.ActivateKey` | flutter_service_worker.js:161-164 | the activate-time key is never empty: the URL minus its first `origin.length + 1` characters, or `/` |
| `Keys.FetchKey` | flutter_service_worker.js:200-207 | the fetch-time key is never empty, never holds `?v=`, and is `/` or a prefix of the URL minus the origin |
| `Keys.ActivateKeyOfRequestUrl` | flutter_service_worker.js:161-164 | the activate-time derivation recovers every non-empty key from the URL the key resolves to |
| `Keys.FetchKeyOfRequestUrl` | flutter_service_worker.js:200-207 | the fetch-time derivation recovers every non-empty key without `?v=` or a leading `#` from its URL |
| `Keys.FetchKeyIgnoresVersion` | flutter_service_worker.js:200-204 | `path?v=token` and `path` derive the same fetch-time key, for every path without `?v=` |
| `Keys.FetchKeyOfVersionedUrl` | flutter_service_worker.js:200-207 | a versioned request for a plain key derives that key |
| `Keys.RootLikeUrlsDeriveRoot` | flutter_service_worker.js:205-207 | the bare origin, `origin/` and `origin/#...` all derive the root key |
| `Keys.VersionedRootKeysDiffer` | flutter_service_worker.js:161-164 | `origin/?v=42` derives `?v=42` at activate time but `/` at fetch time |
| `Keys.PlainPath` | flutter_service_worker.js:202 | a key with no `?` that does not start with `#` holds no `?v=` and is no fragment |
| `Lookup.Get` | flutter_service_worker.js:168 | `obj[key]` on a plain object: the own value, else an inherited `Object.prototype` member, else `undefined` |
| `Lookup.AsWrittenAgreesOnOwnKeys` | flutter_service_worker.js:168 | away from inherited names, the source's truthiness and inequality tests (`ListedAsWritten`, `KeepsAsWritten`) are exactly the own-property tests `Listed` and `Keeps` |
| `Lookup.InheritedNamesPassAsWritten` | flutter_service_worker.js:168 | as written (`ListedAsWritten`, `KeepsAsWritten`), an inherited name counts as listed, and its entry survives upgrades; the intended tests `Listed` and `Keeps` say neither |
| `Lookup.KeepsIsListedAndRecorded` | flutter_service_worker.js:168 | the survival test `Keeps` holds only of a key `Listed` in both manifests, and against itself a manifest keeps exactly its listed keys |
| `Routing.RouteBy` | flutter_service_worker.js:196-216 | a request is intercepted iff it is a GET whose key passes the resource test; it is online-first iff that key is `/` |
| `Routing.Route` | flutter_service_worker.js:208-212 | an intercepted request's key is a manifest key |
| `Routing.RouteCharacterised` | flutter_service_worker.js:196-216 | passthrough iff not GET or not listed; online-first iff GET and key `/` listed; cache-first iff GET and another listed key |
| `Routing.RouteIgnoresVersion` | flutter_service_worker.js:202-216 | a `?v=` token never changes the route |
| `Routing.VersionedResourceIsCacheFirst` | flutter_service_worker.js:213-217 | a versioned GET for any listed key other than `/` is served cache-first |
| `Routing.RouteAsWritten` | flutter_service_worker.js:208-212 | as written, a request is intercepted iff it is a GET whose key passes `!!RESOURCES[key]`, inherited names included; whatever the intended route intercepts it routes the same way |
| `Routing.IndexHtmlIsCacheFirst` | flutter_service_worker.js:213-217 | `index.html?v=...` is served cache-first, not online-first |
| `Routing.AsWrittenInterceptsInheritedName` | flutter_service_worker.js:210-212 | as written, `GET origin/toString` goes cache-first with no such resource; the intended route passes it through |
| `Serving.Forward` | flutter_service_worker.js:222-226 | a fetch outcome reaches the page unchanged: response for response, error for error |
| `Serving.ServeCacheFirst` | flutter_service_worker.js:217-230 | a hit returns the stored response with no fetch and no change; a miss forwards the fetch outcome and stores the response only when it is ok |
| `Serving.ServeOnlineFirst` | flutter_service_worker.js:266-284 | always fetches; a response is stored and returned; on failure the stored copy if any, else the error, with ACTIVE unchanged |
| `Serving.HandleFetch` | flutter_service_worker.js:195-231 | no answer iff the request is not a GET for a listed key; otherwise the online-first outcome for `/` and the cache-first outcome for other keys |
| `Serving.ServingOnlyTouchesRequest` | flutter_service_worker.js:222-225 | serving never removes an entry or changes another URL's response |
| `Serving.CacheFirstThenHit` | flutter_service_worker.js:219-227 | after cache-first serves a stored or ok response, the next request gets the same response without the network |
| `Serving.OnlineFirstThenOffline` | flutter_service_worker.js:268-281 | after an online request, an offline request for the same URL gets the same response |
| `Serving.OnlineFirstRejectsOnlyWhenUncached` | flutter_service_worker.js:273-281 | online-first rejects iff the network failed and nothing is stored |
| `Serving.UnlistedPassesThrough` | flutter_service_worker.js:208-212 | a request whose key is not listed is left to the browser |
| `Http.Fetch` | flutter_service_worker.js:262 | the entries a successful batch writes: one per URL, holding the ok response the network gave |
| `Http.AddAll` | flutter_service_worker.js:262 | `addAll` succeeds iff every fetch gives an ok response; then it adds every URL's response and keeps the other entries |
| `Lifecycle.Requests` | flutter_service_worker.js:129 | one request URL per key, in order, each the URL the key resolves to |
| `Lifecycle.CachedKeys` | flutter_service_worker.js:249-256 | every cached URL's activate-time key is in the set, and every key in it is derived by some cached URL |
| `Lifecycle.Reconciled` | flutter_service_worker.js:160-171 | the reconciled ACTIVE holds only old entries, with their old responses, each under a listed key |
| `Lifecycle.ReconciledAsWritten` | flutter_service_worker.js:160-171 | as written, reconciliation keeps at least the intended survivors and only old entries, each under a key that passes `!!RESOURCES[key]` |
| `Lifecycle.Upgraded` | flutter_service_worker.js:144-177 | after an upgrade every TEMP entry is in ACTIVE with TEMP's response, and every other entry is an old ACTIVE entry with its old response |
| `Lifecycle.Caches.Install` | flutter_service_worker.js:124-132 | TEMP gains the shell's responses iff every shell fetch is ok; otherwise TEMP is unchanged |
| `Lifecycle.Caches.Reconcile` | flutter_service_worker.js:160-171 | ACTIVE becomes exactly its entries whose key is listed at the recorded fingerprint |
| `Lifecycle.Caches.Promote` | flutter_service_worker.js:174-177 | ACTIVE becomes ACTIVE overwritten by every TEMP entry |
| `Lifecycle.Caches.Activate` | flutter_service_worker.js:136-192 | on failure all three caches are gone; otherwise ACTIVE is the upgrade of the old state, TEMP is empty and the record is the new manifest |
| `Lifecycle.Caches.OnFetch` | flutter_service_worker.js:195-231 | the page's answer and the new ACTIVE are those of the fetch handler on the old ACTIVE |
| `Lifecycle.Caches.DownloadOffline` | flutter_service_worker.js:246-263 | requests each manifest key that no cached URL derives, once, and nothing when all are cached; ACTIVE grows by the batch iff it all succeeds; TEMP and the record stay |
| `Lifecycle.CurrentKeys` | flutter_service_worker.js:249-256 | the set of keys the cached URLs derive |
| `Lifecycle.MissingResources` | flutter_service_worker.js:257-261 | each manifest key not in the current set, exactly once |
| `Lifecycle.MissingAsWritten` | flutter_service_worker.js:249-261 | as written, a manifest key is requested iff it is not cached and names no `Object.prototype` member |
| `Lifecycle.AsWrittenDownloadSkipsInheritedName` | flutter_service_worker.js:257-262 | as written, a manifest key `constructor` that is not cached is not requested and stays uncached after a successful batch |
| `Lifecycle.UpgradeMembership` | flutter_service_worker.js:158-177 | after an upgrade a URL is cached iff TEMP staged it, or a record exists and its key is listed at the recorded fingerprint |
| `Lifecycle.UpgradeResponses` | flutter_service_worker.js:165-177 | after an upgrade TEMP's response wins, and a survivor keeps its stored response untouched |
| `Lifecycle.UpgradeEvictsStale` | flutter_service_worker.js:165-170 | an entry whose key is unlisted, unrecorded or re-fingerprinted is evicted unless TEMP supplies it |
| `Lifecycle.FirstActivationSeedsFromTemp` | flutter_service_worker.js:144-151 | with no record ACTIVE ends up exactly TEMP, whatever it held before |
| `Lifecycle.UpgradeKeepsUnchangedFile` | flutter_service_worker.js:165-171 | from `{a:h1, b:h2}` to `{a:h1, b:h3}` with nothing staged, ACTIVE keeps only `a`, with its old response |
| `Lifecycle.ReactivationIsIdentity` | flutter_service_worker.js:158-180 | the ACTIVE an upgrade produces, when every staged URL derives a listed key, is unchanged by re-activating the same manifest with nothing staged |
| `Lifecycle.VersionedRootEntryEvicted` | flutter_service_worker.js:161-170 | an entry under `origin/?v=42` is evicted by the next upgrade unless `?v=42` is listed |
| `Lifecycle.AsWrittenKeepsInheritedName` | flutter_service_worker.js:168-170 | as written, an entry under `origin/constructor` survives upgrades; the intended step evicts it |
| `Lifecycle.ReconciledAgreesOnOwnKeys` | flutter_service_worker.js:168 | when no cached URL derives an inherited name, the as-written reconciliation is the intended one |
| `Lifecycle.DownloadCompletes` | flutter_service_worker.js:246-262 | after a successful `downloadOffline` every manifest key is cached |
| `Lifecycle.DownloadOnlyAdds` | flutter_service_worker.js:257-262 | `downloadOffline` requests no URL that is already cached, so every stored response stays |

## Findings

| source | as written | input that shows it | evidently intended | confidence | as-written member | corrected member |
|---|---|---|---|---|---|---|
| flutter_service_worker.js:210 | `!RESOURCES[key]` reads a plain object, which also answers for `Object.prototype` members | `GET origin/toString` when `toString` is not a resource: intercepted, served cache-first, and an ok answer stored in ACTIVE | only manifest keys are intercepted | high; not executed | `Routing.AsWrittenInterceptsInheritedName` | `Routing.Route` |
| flutter_service_worker.js:168 | `!RESOURCES[key] \|\| RESOURCES[key] != oldManifest[key]` sees the same inherited member on both sides | an ACTIVE entry under `origin/constructor`, with neither manifest listing `constructor`: kept through every upgrade | the entry is evicted as unlisted | high; not executed | `Lifecycle.AsWrittenKeepsInheritedName` | `Lifecycle.UpgradeEvictsStale` |
| flutter_service_worker.js:258 | `!currentContent[resourceKey]` reads a plain object, which also answers for `Object.prototype` members | a manifest key `constructor` that no cached URL derives: never requested, so `downloadOffline` leaves it uncached | every manifest key not cached is requested | high; not executed | `Lifecycle.AsWrittenDownloadSkipsInheritedName` | `Lifecycle.DownloadCompletes` |

## Left out

- Promise plumbing is not modelled: `event.waitUntil`, `event.respondWith`, `.then` chains, `self.skipWaiting()` and `self.clients.claim()`. These are host lifecycle calls with no state to check.
- The message dispatcher (flutter_service_worker.js:232-243) is not modelled. It only maps the tokens `skipWaiting` and `downloadOffline` to the calls above.
- Interleaving of fetch or message events with a running activate is not modelled. Each handler runs to completion.
- The literal `RESOURCES` and `CORE` tables are build-time data and are a `Config` parameter instead.
- The record stores the manifest map itself, not its JSON text, so a parse failure is not modelled.
- `console.error` logging is not modelled.
- Real network fetches, HTTP headers, `{'cache': 'reload'}` and `response.clone()` are not modelled.
- Cache API details are not modelled: `Vary`, fragment-insensitive matching, and the responses `cache.put` refuses. A cache is a map keyed by the exact URL string.
- Relative-URL resolution is not modelled. `Keys.RequestUrl` assumes the worker is served from the site root and that keys are root-relative paths. There is no URL parsing or percent-encoding normalisation.
- Iteration order is not modelled, neither for `cache.keys()` nor for `Object.keys`. The loops take keys in any order.
- Lifecycle.Caches.DownloadOffline: says which keys are requested, not in what order. `addAll` is atomic, so the order does not change the cache.
- Lifecycle.Caches.DownloadOffline: uses own-property lookup through `Lifecycle.MissingResources`. As written (flutter_service_worker.js:258), a manifest key naming an `Object.prototype` member is never requested, so `Lifecycle.DownloadCompletes` describes the corrected step; the as-written filter is `Lifecycle.MissingAsWritten` (see Findings).
- Lifecycle.Caches.Activate: a rejection at any storage step is a single `fault` flag, applied after the last step. The catch deletes all three caches whatever came before, so the end state is the same.
- Serving.HandleFetch: routes with own-property lookup (`Routing.Route`), not the plain-object lookup of flutter_service_worker.js:210. As written, a GET for a key naming an `Object.prototype` member is intercepted too; the as-written counterpart is `Routing.RouteAsWritten` (see Findings).
- Lifecycle.Caches.OnFetch: serves through `Serving.HandleFetch`, so it uses own-property lookup too; the as-written route is `Routing.RouteAsWritten`.
- Lifecycle.Caches.Reconcile: keeps an entry by own-property lookup (`Lookup.Keeps`), not the plain-object test of flutter_service_worker.js:168. As written, an entry under a key naming an `Object.prototype` member survives; the as-written counterpart is `Lifecycle.ReconciledAsWritten` (see Findings).
- Lifecycle.Caches.Activate: reconciles through `Lifecycle.Caches.Reconcile`, so its ensures (`Lifecycle.Upgraded`) states the own-property survival test; the as-written step is `Lifecycle.ReconciledAsWritten`.
- Lifecycle.MissingResources: uses own-property lookup for `currentContent[resourceKey]`, like the corrected members under Findings. As written, a manifest key that names an `Object.prototype` member is never requested. The as-written filter is `Lifecycle.MissingAsWritten`.
- Rejections that nothing handles are not modelled. A rejected `cache.put` in the fetch handler is not modelled: the put always lands. The rejection of `downloadOffline`'s `addAll` is its `ok` flag, with ACTIVE unchanged.
- Response bodies and headers are opaque. A response carries a status and a body.
