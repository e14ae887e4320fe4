# Request-caching engine of the ieumcarelife service worker, in Dafny

This project models the request-caching engine of the service worker `sw.js`.

1. **Protocol filter.** Requests from the `chrome-extension:` and `devtools:` schemes are left to the browser.
2. **Classifier.** Every other request URL is classified into one of three strategies. Three ordered groups of URL patterns are scanned by priority (cache-first, then stale-while-revalidate, then network-first). The first group with a matching pattern decides. A URL that matches nothing falls back to stale-while-revalidate.
3. **Dispatcher.** The dispatcher opens the dynamic cache generation, creating it if missing. It then runs the executor that the strategy label selects; an unknown label falls through to stale-while-revalidate.
4. **Executors.** Each of the three executors reads and writes one generation and consults the network at most once:
   - **Cache-first:** a hit is served without the network. A miss is fetched and stored if ok. A network failure becomes the synthetic `503 Offline` response.
   - **Network-first:** the live answer is stored if ok and served. On failure, the cached snapshot is served, else `503 Offline`.
   - **Stale-while-revalidate:** the cached snapshot is served if there is one, else whatever the fetch settles to. The fetch always runs and stores an ok response for the next request. A failed fetch on a miss settles to `undefined`, not to the offline response.
5. **Activation sweep.** It enumerates the cache generations and deletes every one whose name is not among the current version's three names.

Modules, one per file:

- `http.dfy` (`Http`): the Fetch values.
  - requests, response snapshots and the `ok` flag;
  - the reply a strategy hands back: a response, the offline response or `undefined`;
  - the network fetcher, a class whose answer is a parameter and which counts its calls.
- `classifier.dfy` (`Classifier`): the three strategies and their labels.
  - The regular expressions are modelled as string tests: a suffix anchored at the end of the whole URL, or an unanchored literal.
  - A reference scan `FirstMatchingGroup` over the ordered pattern table, which `GetCacheStrategy` is proved to equal.
  - Lemmas on group priority, the default, and concrete URLs.
- `storage.dfy` (`Storage`): the cache store.
  - A `Cache` class: one generation, a map from request to response that `Put` updates in place.
  - A `CacheStorage` class: the generations by name, with `keys`, `open` and `delete`.
- `executors.dfy` (`Executors`): the executors.
  - One pure reference function per strategy (`...Outcome`), giving the reply, the generation afterwards and the number of fetches.
  - One imperative method per strategy, run against a `Cache` and a `Network` and proved to produce exactly that outcome.
  - Lemmas about the strategies, including two inductive ones over any sequence of handled requests.
- `dispatcher.dfy` (`Dispatcher`): the label switch, the dispatcher and the fetch listener.
- `activation.dfy` (`Activation`):
  - the sweep as a loop over the enumerated names;
  - a reference function `Surviving` for the names it leaves behind;
  - lemmas that it keeps exactly the known generations and that it is idempotent.

Two facts about `sw.js` that shape the model:

- **Un-awaited stores.** The executors do not await `cache.put` (sw.js:142, 156, 172). The model applies the store before the reply is produced.
- **Where failures become `503 Offline`.** Only the executors turn network failures into `503 Offline`; `handleRequest` has no `try`. In stale-while-revalidate, a miss whose fetch fails resolves to `undefined`, which the page receives as no response at all.

## Model

| member | source | states |
|---|---|---|
| Http.Network.Fetch | sw.js:140 | a fetch settles to the network's current answer (a response of any status, or a network error) and is counted as one network call |
| Storage.Cache.Match | sw.js:135 | `cache.match` yields the stored snapshot exactly when the request is cached, and nothing otherwise |
| Storage.Cache.Put | sw.js:142 | `cache.put` replaces the snapshot under the request and leaves every other entry as it was |
| Storage.CacheStorage.Keys | sw.js:58 | `caches.keys()` enumerates every generation name once, and only names of existing generations |
| Storage.CacheStorage.Open | sw.js:117 | `caches.open` returns the generation of that name; an existing one is returned unchanged, a missing one is created empty and appended to the names |
| Storage.CacheStorage.Delete | sw.js:65 | `caches.delete` removes exactly that generation and its name, keeps the store consistent, and reports whether it existed |
| Classifier.Label | sw.js:98-112 | the three strings `getCacheStrategy` returns, one per strategy (their round trip through the dispatcher is `Dispatcher.SelectStrategyInvertsLabel`) |
| Classifier.Pattern.Test | sw.js:16-32 | each regular expression of the three groups (`CACHE_FIRST_PATTERNS`, `STALE_WHILE_REVALIDATE_PATTERNS`, `NETWORK_FIRST_PATTERNS`) as a test: an end-anchored suffix among the alternatives, or an unanchored literal |
| Classifier.AnyTest | sw.js:97 | `patterns.some(p => p.test(url))` holds exactly when some pattern of the group matches the URL |
| Classifier.GetCacheStrategy | sw.js:95-113 | the three prioritised checks and the default equal a first-match scan of the ordered pattern table |
| Classifier.FirstMatchWins | sw.js:95-113 | in the priority scan, the first group with a matching pattern decides, whatever later groups would say |
| Classifier.NoMatchGivesDefault | sw.js:112 | a URL that no group matches receives the default strategy |
| Classifier.ClassificationIsALabel | sw.js:95-113 | the classifier is total and only yields `cache-first`, `stale-while-revalidate` or `network-first` |
| Classifier.CacheFirstGroupWins | sw.js:97-99 | a URL is cache-first if and only if some cache-first pattern matches it, regardless of the other groups |
| Classifier.StaleGroupIsNeverNetworkFirst | sw.js:102-104 | a URL matching a stale-while-revalidate pattern is never network-first, even if a network-first pattern also matches |
| Classifier.NetworkFirstOnlyForItsGroup | sw.js:107-109 | network-first is chosen if and only if a network-first pattern matches and no pattern of the two earlier groups does |
| Classifier.UnmatchedUrlIsStaleWhileRevalidate | sw.js:112 | a URL matching no pattern of any group is served stale-while-revalidate |
| Classifier.BlogScriptIsCacheFirst | sw.js:16-32 | `/blog/app.js` is cache-first: the `.js` suffix outranks the network-first `/blog` pattern |
| Classifier.BlogImageIsStaleWhileRevalidate | sw.js:16-32 | `/blog/x.png` is stale-while-revalidate, not network-first |
| Classifier.ApiContactIsStaleWhileRevalidate | sw.js:16-32 | `/api/contact` is stale-while-revalidate, not network-first |
| Classifier.VersionedStylesheetIsNotCacheFirst | sw.js:18 | `$` anchors at the end of the whole URL: `/a.css?v=1` is not cache-first and falls to the default |
| Classifier.ContactPageIsNetworkFirst | sw.js:27-31 | `/contact` matches neither earlier group and is network-first |
| Executors.StoreIfOk | sw.js:141-143 | `if (networkResponse.ok) cache.put(...)`: an ok response is stored under the request, a non-ok one leaves the generation exactly as it was, and no other key is touched |
| Executors.CacheFirstOutcome | sw.js:133-149 | reference reading of `cacheFirst`: reply, entries afterwards and fetch count; its properties are the `CacheFirst...` lemmas below |
| Executors.NetworkFirstOutcome | sw.js:152-164 | reference reading of `networkFirst`; its properties are `NetworkFirstPrefersNetwork` and the lemmas over all strategies below |
| Executors.StaleWhileRevalidateOutcome | sw.js:167-181 | reference reading of `staleWhileRevalidate` with the refresh completed; its properties are the `Stale...` lemmas below |
| Executors.ServeCacheFirst | sw.js:133-149 | `cacheFirst` returns, stores and fetches exactly what the cache-first reference outcome says, from the generation's previous entries and the network's answer |
| Executors.ServeNetworkFirst | sw.js:152-164 | `networkFirst` returns, stores and fetches exactly what the network-first reference outcome says |
| Executors.ServeStaleWhileRevalidate | sw.js:167-181 | `staleWhileRevalidate`, with its refresh run to completion, returns, stores and fetches exactly what the stale-while-revalidate reference outcome says |
| Executors.CacheFirstHitSkipsNetwork | sw.js:135-138 | cache-first consults the network if and only if the request is not cached; a hit returns the snapshot and leaves the cache unchanged |
| Executors.CacheFirstMissReturnsNetworkAnswer | sw.js:140-148 | on a miss, cache-first returns exactly the network response; an ok one is added under the request with every other entry kept, a non-ok one leaves the cache unchanged; a network failure gives the offline response with the cache unchanged |
| Executors.NetworkFirstPrefersNetwork | sw.js:152-164 | network-first fetches exactly once and serves any live answer; an ok answer replaces any cached entry for the request, a non-ok one leaves the cache unchanged; on failure it serves the snapshot, else the offline response, and leaves the cache unchanged |
| Executors.StaleServesSnapshotAndRefreshesForNext | sw.js:167-181 | on a hit, stale-while-revalidate returns the old snapshot while an ok network response is stored, so that the next request receives the refreshed copy |
| Executors.StaleHitServesSnapshotWhateverNetwork | sw.js:167-181 | on a hit, stale-while-revalidate returns the cached snapshot whatever the fetch gives (ok, non-ok or failure); it fetches once, and only an ok answer replaces the snapshot |
| Executors.StaleMissWithoutNetworkIsUndefined | sw.js:175-180 | on a miss with a failed fetch, stale-while-revalidate resolves to `undefined` and leaves the cache unchanged, whereas cache-first gives the offline response |
| Executors.OnlyTheRequestKeyChanges | sw.js:141-143 | every strategy leaves the generation unchanged, or adds or replaces only the requested key with an ok network response |
| Executors.OnlyOkResponsesAreStored | sw.js:133-181 | if a generation holds only ok responses, it still holds only ok responses after any strategy runs |
| Executors.OfflineOnlyWhenNothingAnswers | sw.js:145-162 | the offline response occurs if and only if the strategy is cache-first or network-first, the request is not cached, and the network fails |
| Executors.UndefinedOnlyFromStaleMiss | sw.js:167-181 | `undefined` (no response object for the page) occurs if and only if a stale-while-revalidate miss meets a network failure |
| Executors.StrategiesAgreeOnMiss | sw.js:133-181 | on a miss with a network response, all three strategies return that response, store it if ok, and fetch once |
| Executors.OfflineFallbacksAgree | sw.js:145-162 | with the network down, cache-first and network-first give the same reply and leave the cache unchanged |
| Executors.CacheFirstRepeatIsAHit | sw.js:133-149 | after a cache-first miss that fetched an ok response, the next cache-first request is a hit with the same reply and no fetch |
| Executors.ReplayKeepsOnlyOk | sw.js:133-181 | over any sequence of handled requests, a generation of ok responses stays a generation of ok responses |
| Executors.ReplayNeverEvicts | sw.js:133-181 | over any sequence of handled requests, no cached request is ever evicted |
| Dispatcher.SelectStrategy | sw.js:119-129 | the `switch (strategy)`: `cache-first` and `network-first` select their executors, any other label (including `stale-while-revalidate`) the stale-while-revalidate one; its properties are the two lemmas below |
| Dispatcher.SelectStrategyInvertsLabel | sw.js:119-129 | the switch sends each label the classifier produces to the executor of that very strategy |
| Dispatcher.UnknownLabelsGetTheClassifierDefault | sw.js:126-128 | any label other than `cache-first` and `network-first` goes to stale-while-revalidate, the classifier's default |
| Dispatcher.HandleRequest | sw.js:116-130 | the dynamic generation is opened (created empty and its name appended if missing); every other generation keeps its cache and its entries; the result, the dynamic generation's new entries and the fetch count are the selected strategy's outcome |
| Dispatcher.IsIgnoredProtocol | sw.js:82 | the schemes `chrome-extension:` and `devtools:` whose requests the worker does not answer (used by `OnFetch`) |
| Dispatcher.OnFetch | sw.js:77-92 | `chrome-extension:` and `devtools:` requests get no answer and change nothing; every other request receives the outcome of its classified strategy on the dynamic generation, with every other generation's entries unchanged and at most the dynamic name added |
| Dispatcher.CachedBlogScriptNeedsNoNetwork | sw.js:87-91 | a cached `/blog/app.js` is served from the cache without a fetch, because the classifier makes it cache-first |
| Activation.IsKnown | sw.js:61-63 | a name is known when it equals `STATIC_CACHE_NAME`, `DYNAMIC_CACHE_NAME` or `CACHE_NAME` (sw.js:4-6); what the sweep does with it is stated by the lemmas below |
| Activation.SurvivorsAreExactlyTheKnownNames | sw.js:60-67 | the sweep keeps a name if and only if it is one of the three current names |
| Activation.SurvivingKeepsExactlyKnownLists | sw.js:60-67 | the sweep leaves a name list unchanged if and only if every name in it is known |
| Activation.SweepIsIdempotent | sw.js:58-68 | a second sweep deletes nothing |
| Activation.OldVersionIsSwept | sw.js:58-68 | a previous version's generation is deleted, and the current static and dynamic generations survive in order |
| Activation.SweptStoreKeepsExactlyKnownGenerations | sw.js:58-68 | after sweeping every name, the store holds exactly the known generations it held before, each the same cache |
| Activation.Activate | sw.js:58-68 | the loop over `caches.keys()` leaves exactly the surviving names, in order, and exactly the known generations, each the same cache object |
| Activation.RetireIfUnknown | sw.js:60-67 | the per-name callback deletes the generation if and only if its name is not known, and otherwise changes nothing |

## Left out

- Install handler (`addAll` of the pinned assets), `skipWaiting`, `clients.claim`, `waitUntil` and `respondWith`: lifecycle wiring around the engine.
- Push, notification-click, sync and error listeners, and `console.log`: outside the caching engine.
- URL parsing: `OnFetch` receives the scheme of the request URL as a parameter.
- The regular-expression engine: each pattern is modelled by the string test it amounts to. These are a suffix anchored at the end of the whole string (no multiline flag) or an unanchored literal; `woff2?` is written out as `.woff` and `.woff2`.
- Concurrency and timing:
  - Stale-while-revalidate's background refresh is modelled as running to completion within the same call.
  - Interleavings of concurrent requests on the same key are not modelled.
  - An un-awaited `cache.put` is modelled as taking effect before the reply.
- Failures of the cache itself: the model's `match`, `put`, `open` and `delete` always succeed. A `put` that the platform would reject (a non-GET request, a partial response) is stored like any other. A `cache.match` that throws inside cache-first's `try` is not modelled.
- `Response.clone()`, headers and bodies as streams: a response is an immutable value (status and body), so the cached copy and the returned response are the same value.
- Network: one scripted answer serves every fetch; timeouts and retries do not exist in the source.
- Classifier examples: they use path-only URLs such as `/blog/app.js`; full URLs with scheme and host are classified by the same predicates.
- Http.Network.Fetch: returns the same scripted answer on every call rather than a fresh network result, because the network is an input of the model.
