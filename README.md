# Catalogue Web App: offline cache and service workers, modelled in Dafny

This project models the caching core of the Catalogue Web App and proves
properties of it. The core has three parts:

- **`OfflineCacheService`** (`offline-cache.js`). The page-side store keeps
  the catalogue bundle in an IndexedDB object store. The store holds one
  record `{key, data, timestamp}` per key. The service saves and loads
  - the app bundle: eight keys, then a `_metadata` record;
  - per-tab bundles under `tab_<n>_<field>`.

  It also answers `hasCache`, clears the store, formats the
  "last updated" label and tracks online/offline status for a single
  observer.
- **The current service worker** (`service-worker.js`, version 10). It
  precaches the app shell into `catalogue-pwa-v10-0` and deletes the other
  versions' partitions on activate. It routes each request:
  - Apps Script image requests go stale-while-revalidate against
    `catalogue-images-v10-0`;
  - other Apps Script traffic is not intercepted;
  - everything else is network-first. Fetches answered with status 200
    are copied into `catalogue-runtime-v10-0` (other 2xx statuses are
    not), and a synthesized 503 is returned when both the network and the
    cache have nothing.
- **The older service worker** (`sw.js`, version 1). It is cache-first for
  `http…` URLs whose text starts with the worker's origin string. Its offline fallback is the cached `index.html`
  or a generated HTML page. A failed precache is caught, and activate keeps
  only its own two partitions.

Files:

- `outcomes.dfy`: `Option` and `Settled`, where `Settled` says whether a
  promise resolved or rejected.
- `text.dfy`: the string operations the code uses:
  - template-literal rendering of integers;
  - `startsWith` and `includes`.
- `offline_cache.dfy`: the store, as values and as the class
  `OfflineCacheService`.
- `offline_cache_proofs.dfy`: the properties of the store.
- `cache_storage.dfy`: the browser Cache API as values. An origin's
  storage is a list of partition names in creation order plus a map from
  name to partition.
- `service_worker.dfy`: the version 10 worker.
- `legacy_worker.dfy`: the version 1 worker, and the lemmas that contrast
  it with version 10.

Inputs instead of effects:

- A failing storage request is an input: `faults` is the set of keys whose
  put or get is rejected during a call. A failing `clear` is the boolean
  `storageOk`.
- A fetch is an input: a `NetOutcome`, which is either `NetFail` or a
  response. `addAll` takes one such outcome per URL.
- The clock is an integer number of milliseconds passed in. The text of
  `toLocaleDateString()` is an opaque string passed in.
- `skipWaiting` and `clients.claim` are flags.
- The observer of the status monitor is a flag. The values it was called
  with are recorded in the field `notified`.

State-changing handlers are methods. Each one is proved against a pure
function of the old state: `PutEach` for a run of saves, `Fetch` for a fetch
handler, `DeleteAll` for activate and for `CLEAR_CACHE`. The lemmas state
the promised behaviour about those functions.

Behaviour of the code worth knowing:

- Version 10 has no same-origin check. Every non-Apps-Script `http…` GET,
  whatever its host, goes network-first (`LegacyWorker.CrossOriginContrast`).
- A network-first response with a status other than 200 is returned as it
  is. There is no cache fallback for it; only a rejected fetch falls back
  (`ServiceWorker.NetworkFirstOnline`).
- Saving without an open database is not an error: `save` resolves false.
  So `saveAppData` then stamps the time and returns true, although nothing
  was written (`OfflineCache.OfflineCacheService.SaveAppData`).
- `loadAppData` and `hasCache` test `items` differently. A truthy `items`
  without a length, such as a number, loads but does not count as a cache
  (`OfflineCacheProofs.HasCacheAgreesWithLoad`).

## Model

| member | source | states |
|---|---|---|
| Text.IntToString | offline-cache.js:236-239 | `${n}` is the decimal expansion of n without leading zeros (its digits denote n), preceded by '-' exactly when n is negative; it contains no underscore |
| Text.IntToStringInjective | offline-cache.js:236-239 | different tab indices render as different text |
| Text.SplitAtUnderscore | offline-cache.js:236-239 | an underscore-free number followed by `_field` splits back into its number and its field |
| OfflineCache.PutEach | offline-cache.js:165-189 | a run of awaited saves succeeds iff no key in it is rejected; it touches only its own keys and keeps every record under its own key |
| OfflineCache.TabKeys | offline-cache.js:236-239 | the four keys `saveTabData(n)` writes are `tab_<n>_items`, `_columnConfig`, `_layerConfig`, `_layersData`, in that order |
| OfflineCache.Snapshot | offline-cache.js:197-224 | the loaded bundle exists iff `items` is truthy and not of length 0; each field is the record stored under its key (null when absent) |
| OfflineCache.TabSnapshot | offline-cache.js:253-264 | a tab bundle exists iff `tab_<n>_items` is truthy, so an empty array still loads; each field is its key's record |
| OfflineCache.Elapsed | offline-cache.js:306-317 | no timestamp gives Never; under one minute gives just now; otherwise whole minutes below 60, whole hours below 24 or whole days below 7, each the floor of the elapsed time; 7 days or more gives the date |
| OfflineCache.Truthy | offline-cache.js:209 | a value is falsy exactly when it is undefined, null, false, 0 or the empty string; arrays and objects are truthy |
| OfflineCache.Length | offline-cache.js:209 | `.length` is defined exactly for arrays, strings and objects carrying a numeric `length` property; for arrays and strings it is their number of elements or characters, for an object that property |
| OfflineCache.Usable | offline-cache.js:209 | `loadAppData` accepts `items` exactly when it is a non-empty array or string, a non-zero number, true, or an object whose `length` is absent or not 0 |
| OfflineCache.HasItems | offline-cache.js:276 | `hasCache` accepts `items` exactly when it is a non-empty array or string, or an object whose `length` is above 0 |
| OfflineCache.Render | offline-cache.js:306-319 | the labels read "Never", "Just now", "<m>m ago", "<h>h ago", "<d>d ago", or the locale date |
| OfflineCache.OfflineCacheService.constructor | offline-cache.js:16-25 | a new service has no database handle, no timestamp and no observer, and takes the platform's connectivity |
| OfflineCache.OfflineCacheService.Init | offline-cache.js:30-57 | init resolves iff the open succeeds; it then holds a handle and adopts the `_metadata` timestamp if it can be read; a failed open changes nothing |
| OfflineCache.OfflineCacheService.HandleOnlineStatus | offline-cache.js:62-71 | the state always becomes the signal; the observer is called, with the new state, exactly when it is registered and the state changed |
| OfflineCache.OfflineCacheService.GetOnlineStatus | offline-cache.js:76-78 | returns the state last recorded by `_handleOnlineStatus`, or the platform's connectivity at construction |
| OfflineCache.OfflineCacheService.LoadLastUpdated | offline-cache.js:90-99 | the timestamp becomes the stored metadata's when the read succeeds and finds one; otherwise it is unchanged, and errors are ignored |
| OfflineCache.OfflineCacheService.Save | offline-cache.js:104-131 | without a handle: resolves false and writes nothing; a rejected put rejects and writes nothing; otherwise stores `{key, data, now}` under key and resolves true |
| OfflineCache.OfflineCacheService.Get | offline-cache.js:136-160 | null without a handle or without a record; rejects exactly when the read fails; otherwise the record's data |
| OfflineCache.OfflineCacheService.SaveRun | offline-cache.js:166-188 | awaited saves in order, stopped by the first rejection, leave exactly the store `PutEach` describes |
| OfflineCache.OfflineCacheService.SaveAppData | offline-cache.js:165-190 | the eight data keys are written before the timestamp is stamped and before `_metadata`; a rejected save returns false and writes no new `_metadata`, so an earlier record stays as it was; without a handle it returns true, writing nothing |
| OfflineCache.OfflineCacheService.LoadAppData | offline-cache.js:195-229 | returns a bundle iff there is a handle, no read fails and `items` is usable; the bundle is what the store holds |
| OfflineCache.OfflineCacheService.SaveTabData | offline-cache.js:234-246 | writes the four tab keys in order and returns false at the first rejected save |
| OfflineCache.OfflineCacheService.LoadTabData | offline-cache.js:251-269 | returns a tab bundle iff there is a handle, no read fails and `tab_<n>_items` is truthy |
| OfflineCache.OfflineCacheService.HasCache | offline-cache.js:274-277 | rejects iff the read of `items` fails; otherwise true iff `items` is truthy with a length above 0 |
| OfflineCache.OfflineCacheService.ClearCache | offline-cache.js:282-300 | false without a handle; rejects, changing nothing, when the clear fails; on success the store is empty, the timestamp is gone, nothing loads, `hasCache` is false and the label reads "Never" |
| OfflineCache.OfflineCacheService.GetLastUpdatedFormatted | offline-cache.js:305-320 | "Never" without a timestamp, "Just now" within the first minute, the locale date after a week |
| OfflineCacheProofs.PutEachStores | offline-cache.js:168-175 | after a run of saves over distinct keys with no rejection, each key holds `{key, value, now}` |
| OfflineCacheProofs.PutEachStopsAt | offline-cache.js:166-188 | a run that meets its first rejection at position j fails, has written every key before j, and leaves key j and every later key as they were |
| OfflineCacheProofs.AppKeysDistinct | offline-cache.js:168-179 | the eight app keys are distinct, and none is `_metadata` |
| OfflineCacheProofs.StoredBundle | offline-cache.js:168-175 | after the eight data saves succeed, each app key holds its field of the bundle |
| OfflineCacheProofs.SnapshotOfStoredBundle | offline-cache.js:197-224 | a store holding each field of a bundle under its key loads as that bundle when its items are usable, and as nothing otherwise |
| OfflineCacheProofs.AppDataRoundTrip | offline-cache.js:165-229 | once the eight data saves succeed, `loadAppData` returns the saved bundle (or nothing when its items are empty or falsy), with or without the `_metadata` record written after it |
| OfflineCacheProofs.MetadataKeepsSnapshot | offline-cache.js:177-182 | writing `_metadata` does not change the loaded bundle |
| OfflineCacheProofs.SnapshotFrame | offline-cache.js:197-224 | the loaded bundle depends only on the eight app keys |
| OfflineCacheProofs.TabSnapshotFrame | offline-cache.js:253-264 | a tab bundle depends only on its four `tab_<n>_*` keys |
| OfflineCacheProofs.TabKeyInjective | offline-cache.js:236-239 | `tab_<n>_<f>` determines both n and f |
| OfflineCacheProofs.TabKeyNotAppKey | offline-cache.js:236-239 | no tab key is an app key or `_metadata` |
| OfflineCacheProofs.TabKeysDistinct | offline-cache.js:236-239 | the four keys of one tab are distinct |
| OfflineCacheProofs.TabDataRoundTrip | offline-cache.js:234-269 | after `saveTabData(n)` succeeds, `loadTabData(n)` returns the saved bundle whenever its items are truthy, empty arrays included |
| OfflineCacheProofs.TabSaveIsolation | offline-cache.js:234-246 | whatever `saveTabData(n)` writes, the app bundle, `_metadata` and every other tab's bundle load as before |
| OfflineCacheProofs.AppSaveKeepsTabs | offline-cache.js:165-190 | `saveAppData` never changes a tab bundle: neither its eight data saves nor its `_metadata` save |
| OfflineCacheProofs.HasCacheAgreesWithLoad | offline-cache.js:274-277 | whenever `hasCache` holds, `loadAppData`'s test holds; the two agree on arrays and strings; a number passes the load test but not `hasCache` |
| OfflineCacheProofs.NotificationsAppend | offline-cache.js:62-71 | the notifications for two consecutive runs of signals are those of each run, the second starting from the state the first left |
| OfflineCacheProofs.FinalStatusSteps | offline-cache.js:62-71 | `FinalStatus`, the state after a run of signals, is what recording each signal in turn gives: the start state for an empty run, otherwise the state reached from the first signal over the rest |
| OfflineCacheProofs.NotificationsBound | offline-cache.js:62-71 | `Notifications`, the observer calls over a run of signals, holds at most one call per signal, and none when the slot is empty |
| OfflineCacheProofs.NotificationsNoRepeat | offline-cache.js:62-71 | over any run of signals the observer is never told the same state twice in a row, its first call differs from the start state, and an empty slot is never called |
| OfflineCacheProofs.NotificationsLast | offline-cache.js:62-71 | with the observer registered, its last call (or the start state if it was never called) is the state the run ends in |
| OfflineCacheProofs.NotificationsAlternate | offline-cache.js:62-71 | for any run of signals, repeated ones included, the observer is never told the same state twice in a row, its first call is a change from the start state, its last call (if any) is the final state, and without an observer nothing is called |
| WebCache.Resolve | service-worker.js:9-16 | a `./` path resolves to the worker's directory followed by the rest of the path |
| WebCache.Open | service-worker.js:23-26 | `caches.open` returns the existing partition unchanged, or creates an empty one listed after the others |
| WebCache.Storable | service-worker.js:127-130 | `cache.put` accepts only a GET request; any response `addAll` accepts, a put of a GET accepts too |
| WebCache.Fetched | service-worker.js:26 | `addAll` accepts a fetch only when it gave a response with a 2xx status other than 206 (`Ok`, the model of `response.ok`, is the 200-299 test) |
| WebCache.Put | service-worker.js:127-130 | `cache.put` replaces only the entry for the request's URL, in its own partition; a non-GET request or a 206 response is refused and changes nothing |
| WebCache.Without | service-worker.js:49-52 | removing a name keeps every other name and keeps the names distinct |
| WebCache.Delete | service-worker.js:49-52 | `caches.delete` removes that partition and leaves every other one as it was |
| WebCache.DeleteAll | service-worker.js:42-53 | deleting a list of names leaves exactly the partitions not named, unchanged |
| WebCache.DeleteEach | service-worker.js:166-172 | deleting names one by one leaves the storage `DeleteAll` describes |
| WebCache.FirstMatch | service-worker.js:136-141 | matching finds nothing iff no listed partition holds the URL; otherwise it returns the entry of the first one that does |
| WebCache.MatchUrl | sw.js:99-103 | `caches.match(url)` finds nothing iff no partition holds the URL |
| WebCache.Match | service-worker.js:136-141 | `caches.match(request)` finds something iff the request is a GET and some partition holds its URL |
| WebCache.PartMatch | service-worker.js:86-87 | `cache.match` on one partition returns that partition's entry for a GET request's URL, if it has one |
| WebCache.PutAll | service-worker.js:26 | storing a batch leaves each URL with its fetched response and keeps the other entries |
| WebCache.AddAll | service-worker.js:26 | `addAll` stores every URL's response iff every fetch gives an ok, non-partial response, and stores nothing otherwise; other partitions are untouched |
| WebCache.PutThenMatch | service-worker.js:127-141 | after a put, `caches.match` finds the request; it finds the stored response itself unless another partition holds the same URL |
| WebCache.OpenKeepsMatch | service-worker.js:127-137 | opening a partition never changes what `caches.match` answers |
| WebCache.FirstMatchAppendEmpty | service-worker.js:127-137 | a partition without the URL, searched last, does not change the first match |
| WebCache.HeldIsMatched | sw.js:99-101 | an entry held in any partition is found by `caches.match` |
| WebCache.DeleteAllListedMatchesNothing | service-worker.js:163-173 | deleting every listed name leaves no name and no match |
| ServiceWorker.PrecacheUrls | service-worker.js:9-16 | the six precache assets, resolved against the worker's directory, in order |
| ServiceWorker.AppsScriptHostBySubstring | service-worker.js:78-79 | every host name containing `script.google.com` or `script.googleusercontent.com` anywhere counts as an Apps Script host under the host test `AppsScriptHost`, content hosts such as `…-script.googleusercontent.com` included |
| ServiceWorker.RouteOf | service-worker.js:67-112 | non-GET and non-`http` requests are not intercepted; an Apps Script host is intercepted only with an `img` parameter (stale-while-revalidate); every other request is network-first, with no origin test |
| ServiceWorker.StaleNames | service-worker.js:39-48 | activate selects exactly the listed names outside the three current partitions |
| ServiceWorker.Fetch | service-worker.js:62-154 | the fetch handler keeps the storage well formed; its behaviour per route is stated by the lemmas below |
| ServiceWorker.Worker.Install | service-worker.js:18-33 | install opens `catalogue-pwa-v10-0` and `addAll`s the assets; it succeeds, and calls `skipWaiting`, iff every asset fetch succeeds; a failure is not caught |
| ServiceWorker.Worker.Activate | service-worker.js:35-60 | activate deletes every stale partition, then claims the clients |
| ServiceWorker.Worker.HandleFetch | service-worker.js:62-154 | the handler's answer and the storage it leaves are those `Fetch` gives |
| ServiceWorker.Worker.HandleMessage | service-worker.js:156-175 | `SKIP_WAITING` sets the skip flag; `CLEAR_CACHE` deletes every partition; anything else, null data included, changes nothing |
| ServiceWorker.ActivateKeepsCurrent | service-worker.js:39-57 | after activate, a partition remains iff it is one of the three current ones, its contents unchanged, and only current names are listed |
| ServiceWorker.ClearCacheEmpties | service-worker.js:163-174 | after `CLEAR_CACHE` no partition of any version remains and nothing matches |
| ServiceWorker.InstallStoresAssets | service-worker.js:22-27 | the precache succeeds iff every asset fetch succeeds, and then each asset is stored with its fetched response |
| ServiceWorker.BypassLeavesStorage | service-worker.js:67-111 | a request the router passes through is not answered and leaves the storage as it was |
| ServiceWorker.ImageHitServesCache | service-worker.js:84-103 | on an image hit, the cached image is the answer whatever the network does; the entry is replaced only by an ok, non-partial response; every other image entry, every other partition and the list of names stay as they were |
| ServiceWorker.ImageMiss | service-worker.js:89-103 | on an image miss, the network response is the answer; the image partition (created if absent) gains exactly that response under the URL when it is ok and not partial, and is otherwise unchanged; no other partition changes; with the network down there is no response |
| ServiceWorker.NetworkFirstOnline | service-worker.js:116-132 | network-first returns the response as fetched; a 200 adds exactly that entry to the runtime partition (created if absent), keeping its other entries and every other partition; any other status leaves the storage alone |
| ServiceWorker.NetworkFirstOffline | service-worker.js:134-151 | with the network down, the answer is a match from any partition, or exactly the synthesized 503 `OFFLINE_RESPONSE` when no partition holds the URL; the storage is unchanged and a response always comes back |
| ServiceWorker.OfflineServesEarlierFetch | service-worker.js:114-152 | a request fetched with 200 while online is answered from the cache when offline later: by the stored copy, unless another partition already holds that URL |
| LegacyWorker.PrecacheUrls | sw.js:8-14 | the five precache URLs, resolved against the worker's directory, in order |
| LegacyWorker.Intercepts | sw.js:59-67 | the guards pass a URL whose text starts with the worker's origin and with `http`; for an `http…` origin only the origin prefix matters |
| LegacyWorker.Kept | sw.js:44 | activate keeps exactly `catalogue-v1.0.0` and `catalogue-runtime-v1.0.0`, neither of which is a version 10 name |
| LegacyWorker.StaleNames | sw.js:41-49 | activate selects exactly the listed names other than the two version 1 partitions |
| LegacyWorker.Fetch | sw.js:58-115 | the fetch handler keeps the storage well formed; its behaviour is stated by the lemmas below |
| LegacyWorker.PassThroughLeavesStorage | sw.js:58-67 | a request, of any method, whose URL does not start with the origin string or with `http` is not answered and leaves the storage unchanged; a request is answered exactly when both guards pass |
| LegacyWorker.Worker.Install | sw.js:17-34 | install opens `catalogue-v1.0.0` and `addAll`s the URLs; a failure is caught, so install always completes, and `skipWaiting` is called only on success |
| LegacyWorker.Worker.Activate | sw.js:37-55 | activate deletes every partition but the two of version 1, then claims the clients |
| LegacyWorker.Worker.HandleFetch | sw.js:58-115 | the handler's answer and the storage it leaves are those `Fetch` gives |
| LegacyWorker.Worker.HandleMessage | sw.js:118-134 | `SKIP_WAITING` sets the skip flag; `CLEAR_CACHE` deletes every partition; anything else changes nothing |
| LegacyWorker.ActivateKeepsOwn | sw.js:41-49 | after activate, a partition remains iff it is `catalogue-v1.0.0` or `catalogue-runtime-v1.0.0`, its contents unchanged |
| LegacyWorker.CacheFirst | sw.js:69-74 | an intercepted request that matches any partition is answered from the cache, whatever the network would do, and nothing is stored |
| LegacyWorker.MissOnline | sw.js:77-93 | on a miss the fetched response is the answer; a 200 `basic` response to a GET adds exactly that entry to the runtime partition (created if absent), keeping everything else; a non-GET request's 200 `basic` response creates the runtime partition if absent, storing nothing; any response other than a 200 `basic` one leaves the storage alone |
| LegacyWorker.InstallCachesIndex | sw.js:20-25 | after a successful install, `caches.match('./index.html')` finds the page |
| LegacyWorker.IndexIsPrecached | sw.js:8-14 | `./index.html` is among the precache URLs |
| LegacyWorker.OfflineMissFallsBack | sw.js:95-111 | offline, an uncached request gets the cached `index.html` if there is one, else the generated page; the storage is unchanged |
| LegacyWorker.OfflineFallbacksDiffer | sw.js:104-110 | with nothing cached and the network down, version 10 answers 503 and version 1 answers a 200 HTML page |
| LegacyWorker.CrossOriginContrast | sw.js:59-62 | a GET whose URL does not start with the worker's origin string goes network-first under version 10 but is not intercepted by version 1 |
| LegacyWorker.PrefixGuardAdmitsExtension | sw.js:59-62 | every URL whose text extends the origin string passes the origin guard, whatever origin it is on |
| LegacyWorker.PrefixGuardAdmitsOtherPort | sw.js:59-62 | under origin `http://localhost`, the other origin's URL `http://localhost:3000/data` is intercepted |
| LegacyWorker.ActivatesRemoveEachOther | sw.js:44 | version 1's activate removes all three version 10 partitions, the image one included; version 10's activate removes both version 1 partitions |

## Left out

- `api-client.js` is not part of this model. It is request plumbing over
  `fetch`, with timeouts, a `Proxy` dispatcher and global exports.
- Promise concurrency is not modelled:
  - `Promise.all` reads are taken in sequence; any rejected read makes the
    whole load null, as in the code.
  - Fire-and-forget `cache.put` calls are applied to the storage as part of
    the same event, after the answer is chosen. Interleaving with other
    events is not modelled.
- OfflineCache.OfflineCacheService.SaveAppData: the eight straight-line
  awaited saves are written as one loop (`SaveRun`) over the key list. The
  loop keeps the same order and the same stop at the first rejection.
  `SaveTabData` is written the same way.
- OfflineCache.OfflineCacheService.Init: `_loadLastUpdated` is not awaited
  in the code. The model runs it to completion before `init` resolves.
- IndexedDB database and schema handling is not modelled. This covers the
  database name and version, `onupgradeneeded`, the object store's creation
  and its `timestamp` index. The persisted store is a map given to the
  constructor.
- Dates are not modelled beyond integer milliseconds:
  - there are no `Date` objects and no ISO strings;
  - the model reads the clock once per `saveAppData` call: every record
    of the call and `lastUpdated` share one `now`, where the code reads
    the clock in each `save` and again for `lastUpdated`. `get` never
    returns a record's timestamp, so no result depends on this;
  - no NaN or invalid dates.
  The text of `toLocaleDateString()` is an opaque input.
- OfflineCache.OfflineCacheService.HasCache: it returns a boolean. The code
  returns the falsy `items` value itself (null, undefined, "" or 0) when
  `items` is falsy.
- `getLastUpdated` returns the timestamp field as it is and has no member
  of its own. `getOnlineStatus` is the function `GetOnlineStatus`, which
  reads the field.
- The window `online`/`offline` listeners are not modelled. The platform
  signals are the arguments of `HandleOnlineStatus`, and `navigator.onLine`
  is the constructor's argument. Registering or replacing the observer is a
  flag, so the monitor lemmas assume the flag is fixed over a run of
  signals.
- Stored values are abstract: numbers are integers. An object other than
  an array, a string or the metadata record is `Obj(id, len)`, which stands for
  its content: a read returns a structured clone of what was saved, and
  equal ids mean structurally equal clones. Object identity is not
  modelled.
- OfflineCache.Length: an object's own `length` property is modelled only
  when it is an integer (`len`); a `length` property holding a string,
  a fraction or another object, which JavaScript would coerce in
  `items.length > 0`, is not modelled.
- OfflineCache.Usable: as for `Length`, only an integer `length` property
  of an object is seen by the `items.length === 0` test.
- OfflineCache.HasItems: as for `Length`, only an integer `length` property
  of an object is seen by the `items.length > 0` test.
- Text.IntToString: tab indices are taken to be integers of magnitude below
  2^53, where `${n}` is the decimal expansion. A fractional index (`1.5`),
  an index above 2^53 (the text of the rounded double) or one of 10^21 or
  more (exponent form, `1e+21`) renders differently in JavaScript and is
  not modelled.
- Cache API details the workers do not depend on are not modelled:
  - `Vary` headers, `ignoreSearch` and URL fragments in matching;
  - duplicate URLs within one `addAll`;
  - quota errors;
  - failures of `caches.open` or `caches.delete`.
- URLs are not parsed. `href`, `protocol`, `hostname` and the query
  parameter names are independent fields of a request. Only `./` paths are
  resolved against the worker's directory.
- LegacyWorker.CrossOriginContrast: holds for a URL whose text does not
  start with the origin string, not for every other origin. The version 1
  guard is a text prefix test, so a different origin whose URL extends
  the origin string (another port, or a longer host name) is intercepted
  and served cache-first (`LegacyWorker.PrefixGuardAdmitsOtherPort`).
- `Response.clone`, body streams and headers other than `Content-Type` are
  not modelled.
- `skipWaiting` and `clients.claim` are flags. An install whose
  `waitUntil` promise rejects is the result `ok == false`.
- Logging (`console.*`) is not modelled.
