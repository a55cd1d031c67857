/**
 * The older service worker (version 1): cache-first for requests whose
 * URL starts with the worker's origin string, with `index.html` or a generated page as the offline fallback,
 * a precache failure that is caught, and an activate step that keeps only
 * its own two partitions.
 */
module LegacyWorker {
  import opened Outcomes
  import opened Text
  import opened WebCache
  import ServiceWorker

  const CACHE_NAME := "catalogue-v1.0.0"
  const RUNTIME_CACHE := "catalogue-runtime-v1.0.0"

  const PRECACHE_URLS: seq<string> := ["./", "./index.html", "./manifest.json", "./icon-192.png", "./icon-512.png"]

  /** The precache URLs once resolved against the worker's directory. */
  function PrecacheUrls(base: string): (urls: seq<string>)
    ensures |urls| == |PRECACHE_URLS|
    ensures forall i | 0 <= i < |urls| :: urls[i] == Resolve(base, PRECACHE_URLS[i])
  {
    seq(|PRECACHE_URLS|, i requires 0 <= i < |PRECACHE_URLS| => Resolve(base, PRECACHE_URLS[i]))
  }

  /** The page generated when the network fails and `index.html` is not cached; its status is the default, 200. */
  const OFFLINE_PAGE := Response(200, "", Default, "text/html",
    "<html><body><h1>Offline</h1><p>You are currently offline. Please check your internet connection.</p></body></html>")

  /**
   * The fetch guards: the request URL, as text, must start with the
   * worker's origin and with `http`. Any method passes. The origin test is a
   * text prefix test: for an `http…` origin it is the only one that matters.
   */
  predicate Intercepts(href: string, origin: string)
    ensures StartsWith(origin, "http") ==> (Intercepts(href, origin) <==> StartsWith(href, origin))
  {
    StartsWith(href, origin) && StartsWith(href, "http")
  }

  /** The activate test: a partition survives only under one of this version's two names. */
  predicate Kept(name: string)
    ensures Kept(name) <==> name in {CACHE_NAME, RUNTIME_CACHE}
    ensures Kept(name) ==> name !in ServiceWorker.CURRENT_CACHES
  {
    name == CACHE_NAME || name == RUNTIME_CACHE
  }

  /** The names activate deletes, in listing order. */
  function StaleNames(names: seq<string>): (r: seq<string>)
    ensures forall n :: n in r <==> n in names && !Kept(n)
    decreases |names|
  {
    if names == [] then []
    else (if Kept(names[0]) then [] else [names[0]]) + StaleNames(names[1..])
  }

  /**
   * The fetch handler as a function of the storage and of how the `fetch`
   * it issues on a cache miss settles; `base` is the worker's directory and
   * `origin` its origin. The background `cache.put` is applied to the
   * returned storage.
   */
  function Fetch(c: Caches, base: string, origin: string, req: Request, net: NetOutcome): (h: Handled)
    requires Valid(c)
    ensures Valid(h.caches)
  {
    if !Intercepts(req.url.href, origin) then Handled(NotIntercepted, c)
    else
      var hit := Match(c, req);
      if hit.Some? then Handled(Responded(hit.value), c)
      else if net.NetResp? then
        if net.resp.status == 200 && net.resp.kind == Basic then
          Handled(Responded(net.resp), Put(Open(c, RUNTIME_CACHE), RUNTIME_CACHE, req, net.resp))
        else Handled(Responded(net.resp), c)
      else
        var page := MatchUrl(c, Resolve(base, "./index.html"));
        Handled(Responded(if page.Some? then page.value else OFFLINE_PAGE), c)
  }

  /** The worker's view of its origin, as for version 10, plus the origin the guards compare against. */
  class Worker {
    var caches: Caches
    var waitingSkipped: bool
    var clientsClaimed: bool
    const base: string
    const origin: string

    predicate Valid()
      reads this
    {
      WebCache.Valid(caches)
    }

    constructor(base: string, origin: string, existing: Caches)
      requires WebCache.Valid(existing)
      ensures Valid()
      ensures this.base == base && this.origin == origin && caches == existing
      ensures !waitingSkipped && !clientsClaimed
    {
      this.base := base;
      this.origin := origin;
      caches := existing;
      waitingSkipped := false;
      clientsClaimed := false;
    }

    /**
     * The install handler: open `CACHE_NAME`, `addAll` the precache URLs,
     * then `skipWaiting`. A failure is caught and logged, so the install
     * always completes, but without `skipWaiting`.
     */
    method Install(net: string -> NetOutcome)
      requires Valid()
      modifies this`caches, this`waitingSkipped
      ensures Valid()
      ensures var created := Open(old(caches), CACHE_NAME);
        var added := AddAll(created, CACHE_NAME, PrecacheUrls(base), net);
        && caches == (if added.Some? then added.value else created)
        && waitingSkipped == (old(waitingSkipped) || added.Some?)
    {
      caches := Open(caches, CACHE_NAME);
      var added := AddAll(caches, CACHE_NAME, PrecacheUrls(base), net);
      if added.Some? {
        caches := added.value;
        waitingSkipped := true;
      }
    }

    /** The activate handler: delete every partition but the two of this version, then claim the clients. */
    method Activate()
      requires Valid()
      modifies this`caches, this`clientsClaimed
      ensures Valid() && clientsClaimed
      ensures caches == DeleteAll(old(caches), StaleNames(old(caches).names))
    {
      var stale := StaleNames(caches.names);
      caches := DeleteEach(caches, stale);
      clientsClaimed := true;
    }

    /** The fetch handler, step by step. */
    method HandleFetch(req: Request, net: NetOutcome) returns (result: FetchResult)
      requires Valid()
      modifies this`caches
      ensures Valid()
      ensures Handled(result, caches) == Fetch(old(caches), base, origin, req, net)
    {
      if !StartsWith(req.url.href, origin) {
        return NotIntercepted;
      }
      if !StartsWith(req.url.href, "http") {
        return NotIntercepted;
      }
      var hit := Match(caches, req);
      if hit.Some? {
        return Responded(hit.value);
      }
      match net
      case NetResp(resp) =>
        if resp.status == 200 && resp.kind == Basic {
          caches := Open(caches, RUNTIME_CACHE);
          caches := Put(caches, RUNTIME_CACHE, req, resp);
        }
        result := Responded(resp);
      case NetFail =>
        var page := MatchUrl(caches, Resolve(base, "./index.html"));
        if page.Some? {
          result := Responded(page.value);
        } else {
          result := Responded(OFFLINE_PAGE);
        }
    }

    /** The message handler: the same two messages as version 10. */
    method HandleMessage(msg: ServiceWorker.Message)
      requires Valid()
      modifies this`caches, this`waitingSkipped
      ensures Valid()
      ensures waitingSkipped == (old(waitingSkipped) || msg == ServiceWorker.Data("SKIP_WAITING"))
      ensures caches == if msg == ServiceWorker.Data("CLEAR_CACHE") then DeleteAll(old(caches), old(caches).names) else old(caches)
    {
      if msg.Data? && msg.kind == "SKIP_WAITING" {
        waitingSkipped := true;
      }
      if msg.Data? && msg.kind == "CLEAR_CACHE" {
        caches := DeleteEach(caches, caches.names);
      }
    }
  }

  /** Activate keeps exactly this version's two partitions, with their contents. */
  lemma ActivateKeepsOwn(c: Caches)
    requires Valid(c)
    ensures var d := DeleteAll(c, StaleNames(c.names));
      && (forall n :: n in d.parts <==> n in c.parts && Kept(n))
      && (forall n | n in d.parts :: d.parts[n] == c.parts[n])
  {
  }

  /**
   * The pass-through path: a request whose URL does not start with the
   * worker's origin, or not with `http`, is left to the browser, whatever its
   * method, and the storage stays as it was; every other request is answered.
   */
  lemma PassThroughLeavesStorage(c: Caches, base: string, origin: string, req: Request, net: NetOutcome)
    requires Valid(c)
    ensures !StartsWith(req.url.href, origin) || !StartsWith(req.url.href, "http") ==>
      Fetch(c, base, origin, req, net) == Handled(NotIntercepted, c)
    ensures Fetch(c, base, origin, req, net).result == NotIntercepted <==> !Intercepts(req.url.href, origin)
  {
  }

  /** Cache-first: an intercepted request with a match is answered from the cache, whatever the network would do. */
  lemma CacheFirst(c: Caches, base: string, origin: string, req: Request, net: NetOutcome)
    requires Valid(c) && Intercepts(req.url.href, origin) && Match(c, req).Some?
    ensures Fetch(c, base, origin, req, net) == Handled(Responded(Match(c, req).value), c)
  {
  }

  /**
   * On a miss with the network up, the response is the answer, and it is
   * stored in `RUNTIME_CACHE` exactly when it is a `basic` 200 to a GET
   * request; no other entry or partition changes. For a `basic` 200 to any
   * other method the partition is still opened, so it is created if
   * absent, but the put is refused and stores nothing.
   */
  lemma MissOnline(c: Caches, base: string, origin: string, req: Request, resp: Response)
    requires Valid(c) && Intercepts(req.url.href, origin) && Match(c, req).None?
    ensures var h := Fetch(c, base, origin, req, NetResp(resp));
      var before: Partition := if RUNTIME_CACHE in c.parts then c.parts[RUNTIME_CACHE] else map[];
      && h.result == Responded(resp)
      && (resp.status == 200 && resp.kind == Basic && req.verb == "GET" ==>
            Holds(h.caches, RUNTIME_CACHE, req.url.href) && h.caches.parts[RUNTIME_CACHE][req.url.href] == resp)
      && (resp.status == 200 && resp.kind == Basic ==>
            && h.caches.parts.Keys == c.parts.Keys + {RUNTIME_CACHE}
            && (forall n | n in c.parts && n != RUNTIME_CACHE :: h.caches.parts[n] == c.parts[n])
            && h.caches.parts[RUNTIME_CACHE] == (if req.verb == "GET" then before[req.url.href := resp] else before))
      && (resp.status != 200 || resp.kind != Basic ==> h.caches == c)
  {
  }

  /** After a successful install, `index.html` is cached and `caches.match` finds it. */
  lemma InstallCachesIndex(c: Caches, base: string, net: string -> NetOutcome)
    requires Valid(c)
    requires AddAll(Open(c, CACHE_NAME), CACHE_NAME, PrecacheUrls(base), net).Some?
    ensures var d := AddAll(Open(c, CACHE_NAME), CACHE_NAME, PrecacheUrls(base), net).value;
      MatchUrl(d, Resolve(base, "./index.html")).Some?
  {
    IndexIsPrecached(base);
    var d := AddAll(Open(c, CACHE_NAME), CACHE_NAME, PrecacheUrls(base), net).value;
    assert Holds(d, CACHE_NAME, PrecacheUrls(base)[1]);
    HeldIsMatched(d, CACHE_NAME, PrecacheUrls(base)[1]);
  }

  /** `./index.html` is among the precache URLs. */
  lemma IndexIsPrecached(base: string)
    ensures PrecacheUrls(base)[1] == Resolve(base, "./index.html")
  {
    assert PRECACHE_URLS[1] == "./index.html";
  }

  /** Offline, an uncached request is answered with the cached `index.html` when there is one, else the generated page. */
  lemma OfflineMissFallsBack(c: Caches, base: string, origin: string, req: Request)
    requires Valid(c) && Intercepts(req.url.href, origin) && Match(c, req).None?
    ensures var page := MatchUrl(c, Resolve(base, "./index.html"));
      Fetch(c, base, origin, req, NetFail) == Handled(Responded(if page.Some? then page.value else OFFLINE_PAGE), c)
  {
  }

  /** With nothing cached and the network down, version 10 answers 503 and version 1 a 200 HTML page. */
  lemma OfflineFallbacksDiffer(base: string, origin: string, req: Request)
    requires ServiceWorker.RouteOf(req) == ServiceWorker.NetworkFirst && Intercepts(req.url.href, origin)
    ensures var empty := Caches([], map[]);
      && ServiceWorker.Fetch(empty, req, NetFail).result == Responded(ServiceWorker.OFFLINE_RESPONSE)
      && Fetch(empty, base, origin, req, NetFail).result == Responded(OFFLINE_PAGE)
      && ServiceWorker.OFFLINE_RESPONSE.status == 503 && OFFLINE_PAGE.status == 200
  {
  }

  /**
   * Version 10 intercepts any origin; version 1 only URLs whose text starts
   * with its origin. A GET to such a URL goes network-first under version 10
   * and is passed through by version 1.
   */
  lemma CrossOriginContrast(origin: string, req: Request)
    requires req.verb == "GET" && StartsWith(req.url.protocol, "http")
    requires !ServiceWorker.AppsScriptHost(req.url.hostname) && !StartsWith(req.url.href, origin)
    ensures ServiceWorker.RouteOf(req) == ServiceWorker.NetworkFirst
    ensures forall c: Caches, base: string, net: NetOutcome | Valid(c) ::
      Fetch(c, base, origin, req, net).result == NotIntercepted
  {
  }

  /**
   * The origin guard compares text, not origins: any URL whose text extends
   * the worker's origin passes it, including one on another port or on a
   * host name that merely begins with the worker's.
   */
  lemma PrefixGuardAdmitsExtension(origin: string, rest: string)
    requires StartsWith(origin, "http")
    ensures Intercepts(origin + rest, origin)
  {
    assert (origin + rest)[..|origin|] == origin;
  }

  /** Under origin `http://localhost`, the other origin `http://localhost:3000` is intercepted. */
  lemma PrefixGuardAdmitsOtherPort()
    ensures Intercepts("http://localhost:3000/data", "http://localhost")
  {
    PrefixGuardAdmitsExtension("http://localhost", ":3000/data");
    assert "http://localhost" + ":3000/data" == "http://localhost:3000/data";
  }

  /**
   * Each version's activate removes the other's partitions: version 1
   * drops all three of version 10's (images included), and version 10 drops
   * both of version 1's.
   */
  lemma ActivatesRemoveEachOther(c: Caches)
    requires Valid(c)
    ensures var d := DeleteAll(c, StaleNames(c.names));
      forall n | n in ServiceWorker.CURRENT_CACHES :: n !in d.parts
    ensures var d := DeleteAll(c, ServiceWorker.StaleNames(c.names));
      CACHE_NAME !in d.parts && RUNTIME_CACHE !in d.parts
  {
  }
}
