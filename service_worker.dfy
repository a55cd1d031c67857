/**
 * The current service worker (version 10): precaching on install, removal
 * of other versions' partitions on activate, request routing with an image
 * stale-while-revalidate path and a network-first path, and the
 * `SKIP_WAITING` / `CLEAR_CACHE` messages.
 */
module ServiceWorker {
  import opened Outcomes
  import opened Text
  import opened WebCache

  const CACHE_NAME := "catalogue-pwa-v10-0"
  const RUNTIME_CACHE := "catalogue-runtime-v10-0"
  const IMAGE_CACHE := "catalogue-images-v10-0"

  /** The partitions this version owns; activate deletes every other one. */
  const CURRENT_CACHES: seq<string> := [CACHE_NAME, RUNTIME_CACHE, IMAGE_CACHE]

  const PRECACHE_ASSETS: seq<string> :=
    ["./", "./index.html", "./manifest.json", "./api-config.js", "./api-client.js", "./offline-cache.js"]

  /** The precache URLs once resolved against the worker's directory. */
  function PrecacheUrls(base: string): (urls: seq<string>)
    ensures |urls| == |PRECACHE_ASSETS|
    ensures forall i | 0 <= i < |urls| :: urls[i] == Resolve(base, PRECACHE_ASSETS[i])
  {
    seq(|PRECACHE_ASSETS|, i requires 0 <= i < |PRECACHE_ASSETS| => Resolve(base, PRECACHE_ASSETS[i]))
  }

  /** The response synthesized when the network fails and nothing is cached. */
  const OFFLINE_RESPONSE := Response(503, "Service Unavailable", Default, "text/plain", "Offline - Content not available")

  /** What the fetch handler does with a request. */
  datatype Route = Bypass | ImageRevalidate | NetworkFirst

  /** Hostnames of the Apps Script backend, matched by substring. */
  predicate AppsScriptHost(hostname: string) {
    Contains(hostname, "script.google.com") || Contains(hostname, "script.googleusercontent.com")
  }

  /**
   * The routing decision: only GET requests over an `http…` protocol are
   * intercepted; Apps Script requests only when they carry an `img`
   * parameter (images), and everything else goes network-first, whatever
   * its origin.
   */
  function RouteOf(req: Request): (r: Route)
    ensures r == Bypass <==>
      || req.verb != "GET"
      || !StartsWith(req.url.protocol, "http")
      || (AppsScriptHost(req.url.hostname) && "img" !in req.url.params)
    ensures r == ImageRevalidate <==>
      && req.verb == "GET"
      && StartsWith(req.url.protocol, "http")
      && AppsScriptHost(req.url.hostname)
      && "img" in req.url.params
    ensures r == NetworkFirst <==>
      && req.verb == "GET"
      && StartsWith(req.url.protocol, "http")
      && !AppsScriptHost(req.url.hostname)
  {
    if req.verb != "GET" then Bypass
    else if !StartsWith(req.url.protocol, "http") then Bypass
    else if AppsScriptHost(req.url.hostname) then
      if "img" in req.url.params then ImageRevalidate else Bypass
    else NetworkFirst
  }

  /**
   * The Apps Script test matches by substring: any host name containing
   * either backend name counts, a `…-script.googleusercontent.com` content
   * host as well as the bare backend host.
   */
  lemma AppsScriptHostBySubstring(pre: string, post: string)
    ensures AppsScriptHost(pre + "script.google.com" + post)
    ensures AppsScriptHost(pre + "script.googleusercontent.com" + post)
  {
    var a := pre + "script.google.com" + post;
    var b := pre + "script.googleusercontent.com" + post;
    assert OccursAt(a, "script.google.com", |pre|) by {
      assert a[|pre|..|pre| + |"script.google.com"|] == "script.google.com";
    }
    assert OccursAt(b, "script.googleusercontent.com", |pre|) by {
      assert b[|pre|..|pre| + |"script.googleusercontent.com"|] == "script.googleusercontent.com";
    }
  }

  /** The names activate deletes: those not owned by this version, in listing order. */
  function StaleNames(names: seq<string>): (r: seq<string>)
    ensures forall n :: n in r <==> n in names && n !in CURRENT_CACHES
    decreases |names|
  {
    if names == [] then []
    else (if names[0] in CURRENT_CACHES then [] else [names[0]]) + StaleNames(names[1..])
  }

  /**
   * The fetch handler as a function of the storage before the event and of
   * how the one `fetch` it issues settles. The background `cache.put` is
   * applied to the returned storage, so later events see it.
   */
  function Fetch(c: Caches, req: Request, net: NetOutcome): (h: Handled)
    requires Valid(c)
    ensures Valid(h.caches)
  {
    match RouteOf(req)
    case Bypass => Handled(NotIntercepted, c)
    case ImageRevalidate =>
      var d := Open(c, IMAGE_CACHE);
      var cached := PartMatch(d, IMAGE_CACHE, req);
      var stored := if net.NetResp? && Ok(net.resp) then Put(d, IMAGE_CACHE, req, net.resp) else d;
      if cached.Some? then Handled(Responded(cached.value), stored)
      else if net.NetResp? then Handled(Responded(net.resp), stored)
      else Handled(NoResponse, stored)
    case NetworkFirst =>
      if net.NetResp? then
        if net.resp.status == 200 then
          Handled(Responded(net.resp), Put(Open(c, RUNTIME_CACHE), RUNTIME_CACHE, req, net.resp))
        else Handled(Responded(net.resp), c)
      else
        var hit := Match(c, req);
        Handled(Responded(if hit.Some? then hit.value else OFFLINE_RESPONSE), c)
  }

  /** The `data` of a message event: absent, or an object with a `type`. */
  datatype Message = NoData | Data(kind: string)

  /**
   * The worker's view of its origin: the shared `CacheStorage`, whether it
   * has called `skipWaiting` and whether it has claimed its clients. `base`
   * is the directory the script was loaded from.
   */
  class Worker {
    var caches: Caches
    var waitingSkipped: bool
    var clientsClaimed: bool
    const base: string

    predicate Valid()
      reads this
    {
      WebCache.Valid(caches)
    }

    constructor(base: string, existing: Caches)
      requires WebCache.Valid(existing)
      ensures Valid()
      ensures this.base == base && caches == existing && !waitingSkipped && !clientsClaimed
    {
      this.base := base;
      caches := existing;
      waitingSkipped := false;
      clientsClaimed := false;
    }

    /**
     * The install handler: open `CACHE_NAME`, `addAll` the precache assets,
     * then `skipWaiting`. A failed `addAll` is not caught: `ok` is false,
     * the install fails, and `skipWaiting` is not reached.
     */
    method Install(net: string -> NetOutcome) returns (ok: bool)
      requires Valid()
      modifies this`caches, this`waitingSkipped
      ensures Valid()
      ensures var created := Open(old(caches), CACHE_NAME);
        var added := AddAll(created, CACHE_NAME, PrecacheUrls(base), net);
        && ok == added.Some?
        && caches == (if ok then added.value else created)
        && waitingSkipped == (old(waitingSkipped) || ok)
    {
      caches := Open(caches, CACHE_NAME);
      var added := AddAll(caches, CACHE_NAME, PrecacheUrls(base), net);
      if added.None? {
        return false;
      }
      caches := added.value;
      waitingSkipped := true;
      ok := true;
    }

    /** The activate handler: delete every partition not owned by this version, then claim the clients. */
    method Activate()
      requires Valid()
      modifies this`caches, this`clientsClaimed
      ensures Valid() && clientsClaimed
      ensures caches == DeleteAll(old(caches), StaleNames(old(caches).names))
    {
      var stale := StaleNames(caches.names);
      caches := DeleteEach(caches, stale);
      clientsClaimed := true;
    }

    /** The fetch handler, step by step. */
    method HandleFetch(req: Request, net: NetOutcome) returns (result: FetchResult)
      requires Valid()
      modifies this`caches
      ensures Valid()
      ensures Handled(result, caches) == Fetch(old(caches), req, net)
    {
      var route := RouteOf(req);
      if route == Bypass {
        return NotIntercepted;
      }
      if route == ImageRevalidate {
        caches := Open(caches, IMAGE_CACHE);
        var cached := PartMatch(caches, IMAGE_CACHE, req);
        if net.NetResp? && Ok(net.resp) {
          caches := Put(caches, IMAGE_CACHE, req, net.resp);
        }
        if cached.Some? {
          result := Responded(cached.value);
        } else if net.NetResp? {
          result := Responded(net.resp);
        } else {
          result := NoResponse;
        }
        return;
      }
      match net
      case NetResp(resp) =>
        if resp.status == 200 {
          caches := Open(caches, RUNTIME_CACHE);
          caches := Put(caches, RUNTIME_CACHE, req, resp);
        }
        result := Responded(resp);
      case NetFail =>
        var hit := Match(caches, req);
        if hit.Some? {
          result := Responded(hit.value);
        } else {
          result := Responded(OFFLINE_RESPONSE);
        }
    }

    /** The message handler: `SKIP_WAITING` and `CLEAR_CACHE`; anything else is ignored. */
    method HandleMessage(msg: Message)
      requires Valid()
      modifies this`caches, this`waitingSkipped
      ensures Valid()
      ensures waitingSkipped == (old(waitingSkipped) || msg == Data("SKIP_WAITING"))
      ensures caches == if msg == Data("CLEAR_CACHE") then DeleteAll(old(caches), old(caches).names) else old(caches)
    {
      if msg.Data? && msg.kind == "SKIP_WAITING" {
        waitingSkipped := true;
      }
      if msg.Data? && msg.kind == "CLEAR_CACHE" {
        caches := DeleteEach(caches, caches.names);
      }
    }
  }

  /** Activate keeps exactly this version's partitions, with their contents, and nothing else. */
  lemma ActivateKeepsCurrent(c: Caches)
    requires Valid(c)
    ensures var d := DeleteAll(c, StaleNames(c.names));
      && (forall n :: n in d.parts <==> n in c.parts && n in CURRENT_CACHES)
      && (forall n | n in d.parts :: d.parts[n] == c.parts[n])
      && (forall n | n in d.names :: n in CURRENT_CACHES)
  {
  }

  /** `CLEAR_CACHE` leaves no partition and no match, whatever version created them. */
  lemma ClearCacheEmpties(c: Caches, req: Request)
    requires Valid(c)
    ensures var d := DeleteAll(c, c.names);
      d.names == [] && d.parts == map[] && Match(d, req).None?
  {
    DeleteAllListedMatchesNothing(c, req);
  }

  /** A successful install leaves every precache asset stored in `CACHE_NAME` with the response fetched for it. */
  lemma InstallStoresAssets(c: Caches, base: string, net: string -> NetOutcome)
    requires Valid(c)
    ensures var added := AddAll(Open(c, CACHE_NAME), CACHE_NAME, PrecacheUrls(base), net);
      && (added.Some? <==> forall i | 0 <= i < |PRECACHE_ASSETS| :: Fetched(net(Resolve(base, PRECACHE_ASSETS[i]))))
      && (added.Some? ==> forall i | 0 <= i < |PRECACHE_ASSETS| ::
            var url := Resolve(base, PRECACHE_ASSETS[i]);
            Holds(added.value, CACHE_NAME, url) && added.value.parts[CACHE_NAME][url] == net(url).resp)
  {
  }

  /** Requests the router passes through leave the storage untouched. */
  lemma BypassLeavesStorage(c: Caches, req: Request, net: NetOutcome)
    requires Valid(c) && RouteOf(req) == Bypass
    ensures Fetch(c, req, net) == Handled(NotIntercepted, c)
  {
  }

  /**
   * Image stale-while-revalidate on a hit: the cached image is the answer
   * whatever the network does, and the background fetch replaces the entry
   * only with an `ok` response; no other entry or partition changes.
   */
  lemma ImageHitServesCache(c: Caches, req: Request, net: NetOutcome)
    requires Valid(c) && RouteOf(req) == ImageRevalidate
    requires Holds(c, IMAGE_CACHE, req.url.href)
    ensures var h := Fetch(c, req, net);
      && h.result == Responded(c.parts[IMAGE_CACHE][req.url.href])
      && Holds(h.caches, IMAGE_CACHE, req.url.href)
      && h.caches.parts[IMAGE_CACHE][req.url.href]
         == (if net.NetResp? && Ok(net.resp) && net.resp.status != 206 then net.resp else c.parts[IMAGE_CACHE][req.url.href])
      && h.caches.names == c.names && h.caches.parts.Keys == c.parts.Keys
      && (forall n | n in c.parts && n != IMAGE_CACHE :: h.caches.parts[n] == c.parts[n])
      && h.caches.parts[IMAGE_CACHE]
         == (if Fetched(net) then c.parts[IMAGE_CACHE][req.url.href := net.resp] else c.parts[IMAGE_CACHE])
  {
  }

  /**
   * Image stale-while-revalidate on a miss: the network response is the
   * answer; the image partition gains exactly that response when it is
   * `ok`, and nothing otherwise; no other partition changes. With the
   * network down there is no answer at all.
   */
  lemma ImageMiss(c: Caches, req: Request, net: NetOutcome)
    requires Valid(c) && RouteOf(req) == ImageRevalidate
    requires !Holds(c, IMAGE_CACHE, req.url.href)
    ensures var h := Fetch(c, req, net);
      var before: Partition := if IMAGE_CACHE in c.parts then c.parts[IMAGE_CACHE] else map[];
      && h.result == (if net.NetResp? then Responded(net.resp) else NoResponse)
      && (Holds(h.caches, IMAGE_CACHE, req.url.href) <==> net.NetResp? && Ok(net.resp) && net.resp.status != 206)
      && h.caches.parts.Keys == c.parts.Keys + {IMAGE_CACHE}
      && (forall n | n in c.parts && n != IMAGE_CACHE :: h.caches.parts[n] == c.parts[n])
      && h.caches.parts[IMAGE_CACHE] == (if Fetched(net) then before[req.url.href := net.resp] else before)
  {
  }

  /**
   * Network-first with the network up: the response is the answer as it
   * came; only a 200 is copied into `RUNTIME_CACHE`, which gains exactly
   * that entry while every other partition stays as it was; anything else
   * leaves the storage alone.
   */
  lemma NetworkFirstOnline(c: Caches, req: Request, resp: Response)
    requires Valid(c) && RouteOf(req) == NetworkFirst
    ensures var h := Fetch(c, req, NetResp(resp));
      var before: Partition := if RUNTIME_CACHE in c.parts then c.parts[RUNTIME_CACHE] else map[];
      && h.result == Responded(resp)
      && (resp.status == 200 ==> Holds(h.caches, RUNTIME_CACHE, req.url.href) && h.caches.parts[RUNTIME_CACHE][req.url.href] == resp)
      && (resp.status == 200 ==>
            && h.caches.parts.Keys == c.parts.Keys + {RUNTIME_CACHE}
            && (forall n | n in c.parts && n != RUNTIME_CACHE :: h.caches.parts[n] == c.parts[n])
            && h.caches.parts[RUNTIME_CACHE] == before[req.url.href := resp])
      && (resp.status != 200 ==> h.caches == c)
  {
  }

  /**
   * Network-first with the network down: a match from any partition, or
   * the synthesized 503 response when none holds the URL; the page always
   * gets a response.
   */
  lemma NetworkFirstOffline(c: Caches, req: Request)
    requires Valid(c) && RouteOf(req) == NetworkFirst
    ensures var h := Fetch(c, req, NetFail);
      && h.caches == c
      && h.result.Responded?
      && ((!exists n | n in c.names :: Holds(c, n, req.url.href)) ==> h.result == Responded(OFFLINE_RESPONSE))
      && ((exists n | n in c.names :: Holds(c, n, req.url.href)) ==> h.result == Responded(Match(c, req).value))
  {
  }

  /**
   * A page fetched with status 200 while online is served from the cache
   * once offline: the copy just stored, unless a partition created earlier
   * holds the same URL.
   */
  lemma OfflineServesEarlierFetch(c: Caches, req: Request, resp: Response)
    requires Valid(c) && RouteOf(req) == NetworkFirst && resp.status == 200
    ensures var d := Fetch(c, req, NetResp(resp)).caches;
      var later := Fetch(d, req, NetFail).result;
      && later.Responded?
      && Match(d, req).Some? && later == Responded(Match(d, req).value)
      && ((forall n | n in c.names && n != RUNTIME_CACHE :: !Holds(c, n, req.url.href)) ==> later == Responded(resp))
  {
    var withRuntime := Open(c, RUNTIME_CACHE);
    PutThenMatch(withRuntime, RUNTIME_CACHE, req, resp);
    if forall n | n in c.names && n != RUNTIME_CACHE :: !Holds(c, n, req.url.href) {
      forall n | n in withRuntime.names && n != RUNTIME_CACHE ensures !Holds(withRuntime, n, req.url.href) {
        assert n in c.parts;
      }
    }
  }
}
