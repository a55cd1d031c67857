/**
 * The part of the browser's Cache API both service workers rely on, as
 * values: an origin's `CacheStorage` is a list of partition names in
 * creation order (what `caches.keys()` returns) and, for each name, a
 * partition mapping request URLs to stored responses. `caches.open`,
 * `cache.put`, `cache.addAll`, `caches.delete` and `caches.match` become
 * functions from the old storage to the new one or to the answer.
 */
module WebCache {
  import opened Outcomes
  import opened Text

  /** `Response.type`. */
  datatype ResponseType = Basic | Cors | Opaque | Default | Error

  /** The parts of a `Response` the workers read or produce. */
  datatype Response = Response(status: int, statusText: string, kind: ResponseType, contentType: string, body: string)

  /** `response.ok`: a status in the range 200-299. */
  predicate Ok(r: Response) {
    200 <= r.status <= 299
  }

  /** A parsed request URL: the full text, `protocol`, `hostname` and the names in `searchParams`. */
  datatype Url = Url(href: string, protocol: string, hostname: string, params: set<string>)

  /** A request: its HTTP method (`verb`) and URL. */
  datatype Request = Request(verb: string, url: Url)

  /** How a `fetch` settles: rejected (offline, DNS, CORS failure) or with a response. */
  datatype NetOutcome = NetFail | NetResp(resp: Response)

  /** What a `fetch` handler does with an event: leave it to the browser, answer it, or answer with nothing. */
  datatype FetchResult = NotIntercepted | Responded(resp: Response) | NoResponse

  type Partition = map<string, Response>

  datatype Caches = Caches(names: seq<string>, parts: map<string, Partition>)

  /** The state after a fetch handler ran: what the page got, and the storage. */
  datatype Handled = Handled(result: FetchResult, caches: Caches)

  /** Every name is listed once, and the listed names are exactly the partitions. */
  predicate Valid(c: Caches) {
    && Distinct(c.names)
    && (forall n | n in c.parts :: n in c.names)
    && (forall n | n in c.names :: n in c.parts)
  }

  /** The partition `name` exists and holds an entry for `key`. */
  predicate Holds(c: Caches, name: string, key: string) {
    name in c.parts && key in c.parts[name]
  }

  /** A relative precache path such as `./index.html`, resolved against the worker's directory `base`. */
  function Resolve(base: string, path: string): (url: string)
    ensures StartsWith(path, "./") ==> StartsWith(url, base) && url[|base|..] == path[2..]
    ensures !StartsWith(path, "./") ==> url == path
  {
    if StartsWith(path, "./") then base + path[2..] else path
  }

  /** `caches.open(name)`: the existing partition, or a new empty one listed last. */
  function Open(c: Caches, name: string): (d: Caches)
    requires Valid(c)
    ensures Valid(d) && name in d.parts
    ensures d.parts[name] == if name in c.parts then c.parts[name] else map[]
    ensures d.parts.Keys == c.parts.Keys + {name}
    ensures forall n | n in c.parts :: d.parts[n] == c.parts[n]
    ensures c.names <= d.names
  {
    if name in c.parts then c else Caches(c.names + [name], c.parts[name := map[]])
  }

  /** What `cache.put` accepts: a GET request and a response other than a partial one (206). */
  predicate Storable(req: Request, resp: Response)
    ensures Storable(req, resp) ==> req.verb == "GET"
    ensures req.verb == "GET" && Fetched(NetResp(resp)) ==> Storable(req, resp)
  {
    req.verb == "GET" && resp.status != 206
  }

  /**
   * `cache.put(req, resp)` on the opened partition `name`. A request or
   * response the Cache API refuses makes the put reject and leaves the
   * storage as it was.
   */
  function Put(c: Caches, name: string, req: Request, resp: Response): (d: Caches)
    requires Valid(c) && name in c.parts
    ensures Valid(d) && d.names == c.names && d.parts.Keys == c.parts.Keys
    ensures forall n | n in c.parts && n != name :: d.parts[n] == c.parts[n]
    ensures Storable(req, resp) ==> d.parts[name] == c.parts[name][req.url.href := resp]
    ensures !Storable(req, resp) ==> d == c
  {
    if Storable(req, resp) then c.(parts := c.parts[name := c.parts[name][req.url.href := resp]]) else c
  }

  /** `names` with `name` taken out, the others in their order. */
  function Without(names: seq<string>, name: string): (r: seq<string>)
    ensures forall n :: n in r <==> n in names && n != name
    ensures Distinct(names) ==> Distinct(r)
    decreases |names|
  {
    if names == [] then []
    else if names[0] == name then Without(names[1..], name)
    else
      var rest := Without(names[1..], name);
      assert Distinct(names) ==> Distinct(names[1..]) && names[0] !in rest;
      [names[0]] + rest
  }

  /** `caches.delete(name)`: the partition and its entries are gone; the others are untouched. */
  function Delete(c: Caches, name: string): (d: Caches)
    requires Valid(c)
    ensures Valid(d)
    ensures d.parts.Keys == c.parts.Keys - {name}
    ensures forall n | n in d.parts :: d.parts[n] == c.parts[n]
  {
    Caches(Without(c.names, name), c.parts - {name})
  }

  /** Deleting each name of `ns` in turn. */
  function DeleteAll(c: Caches, ns: seq<string>): (d: Caches)
    requires Valid(c)
    ensures Valid(d)
    ensures forall n :: n in d.parts <==> n in c.parts && n !in ns
    ensures forall n | n in d.parts :: d.parts[n] == c.parts[n]
    decreases |ns|
  {
    if ns == [] then c else Delete(DeleteAll(c, ns[..|ns| - 1]), ns[|ns| - 1])
  }

  /**
   * Deleting the partitions `ns` one by one, as the workers' `activate`
   * and `CLEAR_CACHE` handlers do over the names `caches.keys()` listed.
   */
  method DeleteEach(c: Caches, ns: seq<string>) returns (d: Caches)
    requires Valid(c)
    ensures d == DeleteAll(c, ns)
  {
    d := c;
    for i := 0 to |ns|
      invariant d == DeleteAll(c, ns[..i])
    {
      assert ns[..i + 1][..i] == ns[..i];
      d := Delete(d, ns[i]);
    }
    assert ns[..|ns|] == ns;
  }

  /** The entry for `key` in the first partition of `names` that has one. */
  function FirstMatch(c: Caches, names: seq<string>, key: string): (r: Option<Response>)
    ensures r.None? <==> forall i | 0 <= i < |names| :: !Holds(c, names[i], key)
    ensures forall i | 0 <= i < |names| && Holds(c, names[i], key) ::
      (forall j | 0 <= j < i :: !Holds(c, names[j], key)) ==> r == Some(c.parts[names[i]][key])
    decreases |names|
  {
    if names == [] then None
    else if Holds(c, names[0], key) then Some(c.parts[names[0]][key])
    else
      var r := FirstMatch(c, names[1..], key);
      assert forall i | 1 <= i < |names| :: names[i] == names[1..][i - 1];
      r
  }

  /** `caches.match(url)`: the partitions are searched in creation order. */
  function MatchUrl(c: Caches, key: string): (r: Option<Response>)
    ensures r.None? <==> forall n | n in c.names :: !Holds(c, n, key)
  {
    FirstMatch(c, c.names, key)
  }

  /** `caches.match(request)`: only a GET request can match. */
  function Match(c: Caches, req: Request): (r: Option<Response>)
    ensures r.Some? <==> req.verb == "GET" && exists n | n in c.names :: Holds(c, n, req.url.href)
  {
    if req.verb == "GET" then MatchUrl(c, req.url.href) else None
  }

  /** `cache.match(request)` on the one partition `name`. */
  function PartMatch(c: Caches, name: string, req: Request): (r: Option<Response>)
    ensures r.Some? <==> req.verb == "GET" && Holds(c, name, req.url.href)
    ensures r.Some? ==> r.value == c.parts[name][req.url.href]
  {
    if req.verb == "GET" && Holds(c, name, req.url.href) then Some(c.parts[name][req.url.href]) else None
  }

  /** A fetch `cache.addAll` accepts: a response that is `ok` and not partial. */
  predicate Fetched(o: NetOutcome)
    ensures Fetched(o) ==> o.NetResp? && o.resp.status != 206 && 200 <= o.resp.status < 300
  {
    o.NetResp? && Ok(o.resp) && o.resp.status != 206
  }

  /** Storing the fetched response of each URL of `keys`, in order. */
  function PutAll(p: Partition, keys: seq<string>, net: string -> NetOutcome): (q: Partition)
    requires forall i | 0 <= i < |keys| :: net(keys[i]).NetResp?
    ensures q.Keys == p.Keys + set k | k in keys
    ensures forall i | 0 <= i < |keys| :: q[keys[i]] == net(keys[i]).resp
    ensures forall k | k in p && k !in keys :: q[k] == p[k]
    decreases |keys|
  {
    if keys == [] then p
    else
      var head := keys[0];
      var q := PutAll(p[head := net(head).resp], keys[1..], net);
      assert forall i | 1 <= i < |keys| :: keys[i] == keys[1..][i - 1];
      assert q[head] == net(head).resp by {
        if head in keys[1..] {
          var j :| 0 <= j < |keys[1..]| && keys[1..][j] == head;
        }
      }
      assert (set k | k in keys) == {head} + set k | k in keys[1..];
      q
  }

  /**
   * `cache.addAll(urls)` on the opened partition `name`, with `net` giving
   * the outcome of fetching each URL: all or nothing. It rejects, storing
   * nothing, unless every fetch gives an acceptable response.
   */
  function AddAll(c: Caches, name: string, keys: seq<string>, net: string -> NetOutcome): (r: Option<Caches>)
    requires Valid(c) && name in c.parts
    ensures r.Some? <==> forall i | 0 <= i < |keys| :: Fetched(net(keys[i]))
    ensures r.Some? ==> var d := r.value;
      && Valid(d) && d.names == c.names && d.parts.Keys == c.parts.Keys
      && (forall i | 0 <= i < |keys| :: Holds(d, name, keys[i]) && d.parts[name][keys[i]] == net(keys[i]).resp)
      && (forall k | k in c.parts[name] && k !in keys :: Holds(d, name, k) && d.parts[name][k] == c.parts[name][k])
      && (forall n | n in c.parts && n != name :: d.parts[n] == c.parts[n])
  {
    if forall i | 0 <= i < |keys| :: Fetched(net(keys[i])) then
      Some(c.(parts := c.parts[name := PutAll(c.parts[name], keys, net)]))
    else None
  }

  /** A stored entry is found by `caches.match`: from its own partition or from one created before it. */
  lemma PutThenMatch(c: Caches, name: string, req: Request, resp: Response)
    requires Valid(c) && name in c.parts && Storable(req, resp)
    ensures var d := Put(c, name, req, resp);
      && Match(d, req).Some?
      && ((forall n | n in c.names && n != name :: !Holds(c, n, req.url.href)) ==> Match(d, req) == Some(resp))
  {
    var d := Put(c, name, req, resp);
    var key := req.url.href;
    var i :| 0 <= i < |c.names| && c.names[i] == name;
    assert Holds(d, c.names[i], key);
    if forall n | n in c.names && n != name :: !Holds(c, n, key) {
      forall j | 0 <= j < i ensures !Holds(d, c.names[j], key) {
        assert c.names[j] != name;
      }
    }
  }

  /** Opening a partition changes no `caches.match` answer: a new one is empty and listed last. */
  lemma OpenKeepsMatch(c: Caches, name: string, key: string)
    requires Valid(c)
    ensures MatchUrl(Open(c, name), key) == MatchUrl(c, key)
  {
    if name !in c.parts {
      FirstMatchAppendEmpty(c, Open(c, name), c.names, name, key);
    }
  }

  /** Appending a partition without `key` to the search order does not change the first match. */
  lemma {:induction false} FirstMatchAppendEmpty(c: Caches, d: Caches, names: seq<string>, name: string, key: string)
    requires forall n | n in names :: n in c.parts && n in d.parts && d.parts[n] == c.parts[n]
    requires !Holds(d, name, key)
    ensures FirstMatch(d, names + [name], key) == FirstMatch(c, names, key)
    decreases |names|
  {
    if names != [] {
      assert (names + [name])[1..] == names[1..] + [name];
      FirstMatchAppendEmpty(c, d, names[1..], name, key);
    }
  }

  /** An entry held in any partition is found by `caches.match`. */
  lemma HeldIsMatched(c: Caches, name: string, key: string)
    requires Valid(c) && Holds(c, name, key)
    ensures MatchUrl(c, key).Some?
  {
    assert name in c.names;
  }

  /** After every listed partition is deleted, nothing matches. */
  lemma DeleteAllListedMatchesNothing(c: Caches, req: Request)
    requires Valid(c)
    ensures DeleteAll(c, c.names).names == [] && Match(DeleteAll(c, c.names), req).None?
  {
  }
}
