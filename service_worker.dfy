/** The offline cache layer of the application (public/sw.js): the request router,
    the three caching strategies, the cacheable-request predicate and the
    install/activate lifecycle, acting on the browser's named cache storage. */
module ServiceWorker {
  import opened Util

  // ---------------------------------------------------------------------------
  // Constants of the worker
  // ---------------------------------------------------------------------------

  /** The shell cache generation. */
  const CacheName: string := "namaste-icd11-v1.0.0"
  /** The runtime cache generation. */
  const RuntimeCache: string := "namaste-icd11-runtime-v1.0.0"

  const PrecacheUrls: seq<string> :=
    ["/", "/static/js/bundle.js", "/static/css/main.css", "/manifest.json", "/logo-template.svg"]

  const ApiCachePatterns: seq<string> :=
    ["/api/stats", "/api/search/autocomplete", "/api/terminology"]

  // ---------------------------------------------------------------------------
  // Requests, responses and what the network does
  // ---------------------------------------------------------------------------

  /** `request.mode`; only 'navigate' is consulted. */
  datatype Mode = Navigate | NotNavigate

  /** An intercepted request: its HTTP method (`verb`), the origin and path of its URL, the query
      string of its URL ("" or starting with '?') and its mode. */
  datatype Request = Request(verb: string, origin: string, pathname: string, search: string, mode: Mode)

  /** The identity under which a same-origin request is stored in a cache. */
  function Key(r: Request): string
  {
    r.pathname + r.search
  }

  datatype Response = Response(status: int, statusText: string, contentType: string, body: string)

  /** What one `fetch` does: it resolves to a response of any status, or it rejects. */
  datatype Fetched = Ok(response: Response) | NetworkError

  /** A named cache: request identity to stored response. */
  type Store = map<string, Response>

  /** The response cache-first falls back to when nothing can be served. */
  const Unavailable: Response :=
    Response(503, "Service Unavailable", "text/plain;charset=UTF-8", "Offline content not available")

  /** The response network-first gives a non-navigation request it cannot serve. */
  const OfflineJson: Response :=
    Response(503, "Service Unavailable", "application/json",
             "{\"error\":\"Offline\",\"message\":\"This feature requires an internet connection\"}")

  /** The self-contained page the navigation handler synthesises (markup abridged). */
  const OfflinePage: Response :=
    Response(200, "", "text/html",
             "<!DOCTYPE html><html lang=\"en\"><head><title>NAMASTE-ICD11 - Offline</title></head>"
             + "<body><h1>You're Offline</h1><button onclick=\"location.reload()\">Try Again</button></body></html>")

  // ---------------------------------------------------------------------------
  // Router
  // ---------------------------------------------------------------------------

  datatype Handler = PassThrough | NetworkFirstHandler | CacheFirstHandler | NavigationHandler

  /** The first-match classifier of the fetch listener. `selfOrigin` is `location.origin`. */
  function Route(r: Request, selfOrigin: string): (h: Handler)
    ensures h != PassThrough <==> r.verb == "GET" && r.origin == selfOrigin
    ensures h == CacheFirstHandler ==> !StartsWith(r.pathname, "/api/")
    ensures h == NavigationHandler ==> r.mode == Navigate && !Contains(r.pathname, ".")
  {
    if r.verb != "GET" then PassThrough
    else if r.origin != selfOrigin then PassThrough
    else if StartsWith(r.pathname, "/api/") then NetworkFirstHandler
    else if StartsWith(r.pathname, "/static/")
         || (Contains(r.pathname, ".") && !StartsWith(r.pathname, "/api/")) then CacheFirstHandler
    else if r.mode == Navigate then NavigationHandler
    else NetworkFirstHandler
  }

  /** The routing rules stated one outcome at a time, each as an equivalence: every
      intercepted request gets exactly the handler of the first rule it meets. */
  lemma RouteByRule(r: Request, selfOrigin: string)
    ensures var intercepted := r.verb == "GET" && r.origin == selfOrigin;
            var api := StartsWith(r.pathname, "/api/");
            var asset := StartsWith(r.pathname, "/static/") || '.' in r.pathname;
            && (Route(r, selfOrigin) == PassThrough <==> !intercepted)
            && (Route(r, selfOrigin) == CacheFirstHandler <==> intercepted && !api && asset)
            && (Route(r, selfOrigin) == NavigationHandler <==> intercepted && !api && !asset && r.mode == Navigate)
            && (Route(r, selfOrigin) == NetworkFirstHandler <==>
                  intercepted && (api || (!asset && r.mode != Navigate)))
  {
    ContainsChar(r.pathname, '.');
    assert "." == ['.'];
  }

  /** An API path that contains a dot still goes network-first. */
  lemma ApiPathWithDotIsNetworkFirst(selfOrigin: string)
    ensures Route(Request("GET", selfOrigin, "/api/search.json", "", NotNavigate), selfOrigin) == NetworkFirstHandler
  {
    assert "/api/search.json"[..5] == "/api/";
  }

  // ---------------------------------------------------------------------------
  // Cacheable-request predicate
  // ---------------------------------------------------------------------------

  /** `API_CACHE_PATTERNS.some(p => pathname.includes(p))` */
  predicate AnyPatternIn(pathname: string, patterns: seq<string>)
  {
    exists i :: 0 <= i < |patterns| && Contains(pathname, patterns[i])
  }

  predicate ShouldCache(pathname: string)
  {
    AnyPatternIn(pathname, ApiCachePatterns)
  }

  /** The predicate is exactly "the path contains one of the three API sub-paths". */
  lemma ShouldCacheIff(pathname: string)
    ensures ShouldCache(pathname) <==>
              Contains(pathname, "/api/stats")
              || Contains(pathname, "/api/search/autocomplete")
              || Contains(pathname, "/api/terminology")
  {
    if Contains(pathname, "/api/stats") {
      assert Contains(pathname, ApiCachePatterns[0]);
    } else if Contains(pathname, "/api/search/autocomplete") {
      assert Contains(pathname, ApiCachePatterns[1]);
    } else if Contains(pathname, "/api/terminology") {
      assert Contains(pathname, ApiCachePatterns[2]);
    }
  }

  /** Only paths that mention the API prefix are ever written to the runtime cache. */
  lemma ShouldCacheOnlyApi(pathname: string)
    requires ShouldCache(pathname)
    ensures Contains(pathname, "/api/")
  {
    var i :| 0 <= i < |ApiCachePatterns| && Contains(pathname, ApiCachePatterns[i]);
    var p := ApiCachePatterns[i];
    assert p[..5] == "/api/";
    assert Contains(p, "/api/");
    ContainsTransitive(pathname, p, "/api/");
  }

  // ---------------------------------------------------------------------------
  // Cache storage, as pure functions
  // ---------------------------------------------------------------------------

  /** `cache.match(key)` on the cache called `name`, if that cache exists. */
  function Lookup(stores: map<string, Store>, name: string, key: string): (r: Option<Response>)
    ensures r.Some? <==> name in stores && key in stores[name]
    ensures r.Some? ==> r.value == stores[name][key]
  {
    if name in stores && key in stores[name] then Some(stores[name][key]) else None
  }

  /** The cache names in creation order after `caches.open(name)`. */
  function OpenedNames(names: seq<string>, stores: map<string, Store>, name: string): (r: seq<string>)
    ensures name in stores ==> r == names
    ensures name !in stores ==> r == names + [name]
  {
    if name in stores then names else names + [name]
  }

  /** The caches after `caches.open(name)`: an empty cache is created when it is missing. */
  function Opened(stores: map<string, Store>, name: string): (r: map<string, Store>)
    ensures r.Keys == stores.Keys + {name}
    ensures forall n :: n in stores ==> r[n] == stores[n]
    ensures name !in stores ==> r[name] == map[]
  {
    if name in stores then stores else stores[name := map[]]
  }

  /** `cache.put(key, response)` on the cache called `name`. */
  function Put(stores: map<string, Store>, name: string, key: string, resp: Response): (r: map<string, Store>)
    requires name in stores
    ensures r.Keys == stores.Keys
    ensures Lookup(r, name, key) == Some(resp)
    ensures forall n, k :: (n != name || k != key) ==> Lookup(r, n, k) == Lookup(stores, n, k)
  {
    stores[name := stores[name][key := resp]]
  }

  /** Storing the same response twice under the same key is the same as storing it once. */
  lemma PutIdempotent(stores: map<string, Store>, name: string, key: string, resp: Response)
    requires name in stores
    ensures Put(Put(stores, name, key, resp), name, key, resp) == Put(stores, name, key, resp)
  {
    assert stores[name][key := resp][key := resp] == stores[name][key := resp];
  }

  /** `caches.match(key)`: the first cache, in creation order, that holds `key`. */
  function MatchAll(names: seq<string>, stores: map<string, Store>, key: string): (r: Option<Response>)
    ensures r.Some? <==> exists i :: 0 <= i < |names| && Lookup(stores, names[i], key).Some?
    ensures r.Some? ==> exists i :: 0 <= i < |names| && Lookup(stores, names[i], key) == r
                                    && forall j :: 0 <= j < i ==> Lookup(stores, names[j], key).None?
  {
    if |names| == 0 then None
    else if Lookup(stores, names[0], key).Some? then Lookup(stores, names[0], key)
    else
      var rest := MatchAll(names[1..], stores, key);
      assert forall i :: 1 <= i < |names| ==> names[1..][i - 1] == names[i];
      rest
  }

  /** An empty cache created by `caches.open` changes no `caches.match` result. */
  lemma MatchAllIgnoresNewEmptyCache(names: seq<string>, stores: map<string, Store>, name: string, key: string)
    requires name !in stores
    requires forall n :: n in names ==> n in stores
    ensures MatchAll(names + [name], stores[name := map[]], key) == MatchAll(names, stores, key)
  {
    var s' := stores[name := map[]];
    var names' := names + [name];
    assert forall i :: 0 <= i < |names| ==> names'[i] == names[i] && Lookup(s', names[i], key) == Lookup(stores, names[i], key);
    assert Lookup(s', name, key).None?;
    var r := MatchAll(names', s', key);
    if r.Some? {
      var i :| 0 <= i < |names'| && Lookup(s', names'[i], key) == r
                && forall j :: 0 <= j < i ==> Lookup(s', names'[j], key).None?;
      FirstMatchUnique(names, stores, key, i);
    }
  }

  /** The entry `MatchAll` returns is that of the first cache that holds the key. */
  lemma FirstMatchUnique(names: seq<string>, stores: map<string, Store>, key: string, i: int)
    requires 0 <= i < |names| && Lookup(stores, names[i], key).Some?
    requires forall j :: 0 <= j < i ==> Lookup(stores, names[j], key).None?
    ensures MatchAll(names, stores, key) == Lookup(stores, names[i], key)
  {
    var r := MatchAll(names, stores, key);
    var k :| 0 <= k < |names| && Lookup(stores, names[k], key) == r
              && forall j :: 0 <= j < k ==> Lookup(stores, names[j], key).None?;
    if k < i {
    } else if i < k {
    }
  }

  // ---------------------------------------------------------------------------
  // Install and activate, as pure functions
  // ---------------------------------------------------------------------------

  /** `response.ok`: the status is in the range 200-299. */
  predicate IsOk(f: Fetched)
  {
    f.Ok? && 200 <= f.response.status <= 299
  }

  /** A fetch outcome `cache.addAll` can store: an ok response other than a 206
      Partial Content, which the Cache API refuses although it is ok. */
  predicate Storable(f: Fetched)
  {
    IsOk(f) && f.response.status != 206
  }

  /** `cache.addAll` succeeds only when every fetch resolves with a storable response. */
  predicate AllOk(outcomes: seq<Fetched>)
  {
    forall i :: 0 <= i < |outcomes| ==> Storable(outcomes[i])
  }

  /** A 206 is ok, yet one among the precache fetches makes `addAll` fail. */
  lemma PartialContentFailsPrecache(outcomes: seq<Fetched>, i: int)
    requires 0 <= i < |outcomes| && outcomes[i].Ok? && outcomes[i].response.status == 206
    ensures IsOk(outcomes[i]) && !AllOk(outcomes)
  {
  }

  /** The entries `cache.addAll(urls)` writes when every fetch succeeded. */
  function Precached(urls: seq<string>, outcomes: seq<Fetched>): (m: Store)
    requires |outcomes| == |urls| && AllOk(outcomes)
    ensures m.Keys == set u | u in urls
  {
    if |urls| == 0 then map[]
    else Precached(urls[..|urls| - 1], outcomes[..|urls| - 1])[urls[|urls| - 1] := outcomes[|urls| - 1].response]
  }

  /** With distinct URLs, each URL is stored with the response fetched for it. */
  lemma {:induction false} PrecachedAt(urls: seq<string>, outcomes: seq<Fetched>, i: int)
    requires |outcomes| == |urls| && AllOk(outcomes)
    requires forall a, b :: 0 <= a < b < |urls| ==> urls[a] != urls[b]
    requires 0 <= i < |urls|
    ensures Precached(urls, outcomes)[urls[i]] == outcomes[i].response
    decreases |urls|
  {
    var n := |urls| - 1;
    if i < n {
      assert urls[..n][i] == urls[i];
      PrecachedAt(urls[..n], outcomes[..n], i);
    }
  }

  /** The names that survive activation: those equal to one of the two current ones. */
  function Surviving(names: seq<string>, shell: string, runtime: string): (r: seq<string>)
    ensures forall n :: n in r <==> n in names && (n == shell || n == runtime)
    ensures |r| <= |names|
  {
    if |names| == 0 then []
    else
      var rest := Surviving(names[1..], shell, runtime);
      assert forall n :: n in names <==> n == names[0] || n in names[1..];
      if names[0] == shell || names[0] == runtime then [names[0]] + rest else rest
  }

  /** The names activation deletes, in the order `caches.keys()` lists them. */
  function Stale(names: seq<string>, shell: string, runtime: string): (r: seq<string>)
    ensures forall n :: n in r <==> n in names && n != shell && n != runtime
    ensures |r| + |Surviving(names, shell, runtime)| == |names|
  {
    if |names| == 0 then []
    else
      var rest := Stale(names[1..], shell, runtime);
      assert forall n :: n in names <==> n == names[0] || n in names[1..];
      if names[0] != shell && names[0] != runtime then [names[0]] + rest else rest
  }

  /** The cleanup of an upgrade from generation v0 to v1. */
  lemma UpgradeExample()
    ensures Stale(["v0-shell", "v0-runtime", "v1-shell"], "v1-shell", "v1-runtime") == ["v0-shell", "v0-runtime"]
    ensures Surviving(["v0-shell", "v0-runtime", "v1-shell"], "v1-shell", "v1-runtime") == ["v1-shell"]
  {
    var names := ["v0-shell", "v0-runtime", "v1-shell"];
    assert names[1..] == ["v0-runtime", "v1-shell"];
    assert names[1..][1..] == ["v1-shell"];
  }

  // ---------------------------------------------------------------------------
  // What each strategy does, as pure functions of the cache storage
  // ---------------------------------------------------------------------------

  /** What an operation returned, and the cache names and contents after it. */
  datatype Step<R> = Step(result: R, names: seq<string>, stores: map<string, Store>)

  /** Cache-first: serve the shell cache's entry if there is one; otherwise fetch,
      keep a copy of a status-200 response and return the response whatever its
      status; a rejected fetch gives the 503 text response. The shell cache is
      opened, so created if missing, in every case. */
  function CacheFirstStep(names: seq<string>, stores: map<string, Store>, req: Request, net: Fetched): (s: Step<Response>)
    ensures s.names == OpenedNames(names, stores, CacheName)
    ensures Lookup(stores, CacheName, Key(req)).Some? ==>
              s.result == Lookup(stores, CacheName, Key(req)).value && s.stores == stores
    ensures Lookup(stores, CacheName, Key(req)).None? ==>
              && s.result == (if net.Ok? then net.response else Unavailable)
              && s.stores == (if net.Ok? && net.response.status == 200
                              then Put(Opened(stores, CacheName), CacheName, Key(req), net.response)
                              else Opened(stores, CacheName))
  {
    var storesNow := Opened(stores, CacheName);
    var namesNow := OpenedNames(names, stores, CacheName);
    var cached := Lookup(storesNow, CacheName, Key(req));
    if cached.Some? then Step(cached.value, namesNow, storesNow)
    else
      match net
      case NetworkError => Step(Unavailable, namesNow, storesNow)
      case Ok(r) => Step(r, namesNow, if r.status == 200 then Put(storesNow, CacheName, Key(req), r) else storesNow)
  }

  /** Network-first: return the network response, keeping a copy in the runtime cache
      when its status is 200 and the path is cacheable. When the fetch rejects, the
      runtime cache's entry is served; failing that, a navigation gets
      `caches.match('/')`, which may find nothing (`None`), and anything else gets the
      JSON 503 response. */
  function NetworkFirstStep(names: seq<string>, stores: map<string, Store>, req: Request, net: Fetched)
    : (s: Step<Option<Response>>)
    requires forall n :: n in names <==> n in stores
    ensures net.Ok? ==> s.result == Some(net.response)
    ensures net.Ok? && net.response.status == 200 && ShouldCache(req.pathname) ==>
              && s.names == OpenedNames(names, stores, RuntimeCache)
              && s.stores == Put(Opened(stores, RuntimeCache), RuntimeCache, Key(req), net.response)
    ensures net.Ok? && !(net.response.status == 200 && ShouldCache(req.pathname)) ==>
              s.names == names && s.stores == stores
    ensures net.NetworkError? ==>
              && s.names == OpenedNames(names, stores, RuntimeCache)
              && s.stores == Opened(stores, RuntimeCache)
              && s.result == (if Lookup(stores, RuntimeCache, Key(req)).Some?
                              then Lookup(stores, RuntimeCache, Key(req))
                              else if req.mode == Navigate then MatchAll(names, stores, "/")
                              else Some(OfflineJson))
  {
    match net
    case Ok(r) =>
      if r.status == 200 && ShouldCache(req.pathname) then
        var storesNow := Opened(stores, RuntimeCache);
        Step(Some(r), OpenedNames(names, stores, RuntimeCache), Put(storesNow, RuntimeCache, Key(req), r))
      else Step(Some(r), names, stores)
    case NetworkError =>
      var storesNow := Opened(stores, RuntimeCache);
      var namesNow := OpenedNames(names, stores, RuntimeCache);
      var cached := Lookup(storesNow, RuntimeCache, Key(req));
      if cached.Some? then Step(cached, namesNow, storesNow)
      else if req.mode == Navigate then
        assert MatchAll(namesNow, storesNow, "/") == MatchAll(names, stores, "/") by {
          if RuntimeCache !in stores {
            MatchAllIgnoresNewEmptyCache(names, stores, RuntimeCache, "/");
          }
        }
        Step(MatchAll(namesNow, storesNow, "/"), namesNow, storesNow)
      else Step(Some(OfflineJson), namesNow, storesNow)
  }

  /** The navigation handler: the network response as it is, with no cache write;
      when the fetch rejects, the shell cache's "/" entry, and failing that the
      synthesised offline page. */
  function NavigationStep(names: seq<string>, stores: map<string, Store>, net: Fetched): (s: Step<Response>)
    ensures net.Ok? ==> s == Step(net.response, names, stores)
    ensures net.NetworkError? ==>
              && s.names == OpenedNames(names, stores, CacheName)
              && s.stores == Opened(stores, CacheName)
              && s.result == (if Lookup(stores, CacheName, "/").Some? then Lookup(stores, CacheName, "/").value
                              else OfflinePage)
  {
    match net
    case Ok(r) => Step(r, names, stores)
    case NetworkError =>
      var storesNow := Opened(stores, CacheName);
      var cached := Lookup(storesNow, CacheName, "/");
      Step(if cached.Some? then cached.value else OfflinePage, OpenedNames(names, stores, CacheName), storesNow)
  }

  /** How the promise handed to the install event's `waitUntil` settles. */
  datatype Settled = Resolved | Rejected

  /** The install chain: `addAll` rejects unless every precache fetch gives a storable
      response. With `catchFailure`, as written, the `.catch` logs the rejection and
      the chain resolves anyway; without it the rejection reaches `waitUntil` and the
      installation fails. */
  function InstallSettles(outcomes: seq<Fetched>, catchFailure: bool): (s: Settled)
    ensures s == Rejected <==> !catchFailure && !AllOk(outcomes)
  {
    if AllOk(outcomes) then Resolved
    else if catchFailure then Resolved
    else Rejected
  }

  /** As written, a precache fetch answered with a 404 still lets the installation
      succeed, with `skipWaiting` skipped and the shell cache left without the
      precache entries. */
  lemma FailedPrecacheStillInstalls()
    ensures var page := Response(200, "OK", "text/html", "");
            var missing := Response(404, "Not Found", "text/plain", "");
            var outcomes := [Ok(page), Ok(page), Ok(missing), Ok(page), Ok(page)];
            && |outcomes| == |PrecacheUrls|
            && !AllOk(outcomes)
            && InstallSettles(outcomes, true) == Resolved
  {
    var missing := Response(404, "Not Found", "text/plain", "");
    var outcomes := [Ok(Response(200, "OK", "text/html", "")), Ok(Response(200, "OK", "text/html", "")),
                     Ok(missing), Ok(Response(200, "OK", "text/html", "")), Ok(Response(200, "OK", "text/html", ""))];
    assert !Storable(outcomes[2]);
  }

  /** Without the `.catch`, the installation succeeds exactly when every precache URL
      was fetched with a storable response, and then each is stored with its response. */
  lemma AtomicInstall(outcomes: seq<Fetched>)
    requires |outcomes| == |PrecacheUrls|
    ensures InstallSettles(outcomes, false) == Resolved <==> AllOk(outcomes)
    ensures InstallSettles(outcomes, false) == Resolved ==>
              forall i :: 0 <= i < |PrecacheUrls| ==> Precached(PrecacheUrls, outcomes)[PrecacheUrls[i]] == outcomes[i].response
  {
    if AllOk(outcomes) {
      forall i | 0 <= i < |PrecacheUrls|
        ensures Precached(PrecacheUrls, outcomes)[PrecacheUrls[i]] == outcomes[i].response
      {
        PrecachedAt(PrecacheUrls, outcomes, i);
      }
    }
  }

  // ---------------------------------------------------------------------------
  // The worker and its cache storage
  // ---------------------------------------------------------------------------

  datatype FetchOutcome = NotIntercepted | Responded(response: Option<Response>)

  class Worker {
    /** Cache names in creation order, as `caches.keys()` lists them. */
    var names: seq<string>
    /** The contents of each named cache. */
    var stores: map<string, Store>
    /** `self.skipWaiting()` was reached. */
    var skippedWaiting: bool
    /** `self.clients.claim()` was reached. */
    var claimedClients: bool

    ghost predicate Valid()
      reads this
    {
      && Distinct(names)
      && (forall n :: n in names <==> n in stores)
    }

    /** A worker starting over the caches a previous version left behind. */
    constructor (persistedNames: seq<string>, persisted: map<string, Store>)
      requires Distinct(persistedNames)
      requires forall n :: n in persistedNames <==> n in persisted
      ensures Valid()
      ensures names == persistedNames && stores == persisted
      ensures !skippedWaiting && !claimedClients
    {
      names, stores := persistedNames, persisted;
      skippedWaiting, claimedClients := false, false;
    }

    /** `caches.open(name)` */
    method Open(name: string)
      requires Valid()
      modifies this
      ensures Valid()
      ensures names == OpenedNames(old(names), old(stores), name)
      ensures stores == Opened(old(stores), name)
      ensures skippedWaiting == old(skippedWaiting) && claimedClients == old(claimedClients)
    {
      if name !in stores {
        names := names + [name];
        stores := stores[name := map[]];
      }
    }

    /** The install handler: open the shell cache, `addAll` the precache list and
        reach `skipWaiting` only if that succeeded; a failure is caught and logged, so
        the installation itself succeeds either way (`settled`).
        `outcomes[i]` is what fetching `PrecacheUrls[i]` does. */
    method Install(outcomes: seq<Fetched>) returns (precached: bool, settled: Settled)
      requires Valid() && |outcomes| == |PrecacheUrls|
      modifies this
      ensures Valid()
      ensures precached <==> AllOk(outcomes)
      ensures settled == InstallSettles(outcomes, true)
      ensures names == OpenedNames(old(names), old(stores), CacheName)
      ensures stores.Keys == old(stores).Keys + {CacheName}
      ensures forall n :: n in stores && n != CacheName ==> stores[n] == old(stores)[n]
      ensures stores[CacheName] ==
                if precached then Opened(old(stores), CacheName)[CacheName] + Precached(PrecacheUrls, outcomes)
                else Opened(old(stores), CacheName)[CacheName]
      ensures precached ==> forall i :: 0 <= i < |PrecacheUrls| ==>
                Lookup(stores, CacheName, PrecacheUrls[i]) == Some(outcomes[i].response)
      ensures skippedWaiting == (old(skippedWaiting) || precached)
      ensures claimedClients == old(claimedClients)
    {
      Open(CacheName);
      precached := forall i | 0 <= i < |outcomes| :: Storable(outcomes[i]);
      if precached {
        stores := stores[CacheName := stores[CacheName] + Precached(PrecacheUrls, outcomes)];
        skippedWaiting := true;
        forall i | 0 <= i < |PrecacheUrls|
          ensures Lookup(stores, CacheName, PrecacheUrls[i]) == Some(outcomes[i].response)
        {
          PrecachedAt(PrecacheUrls, outcomes, i);
        }
      }
      settled := Resolved;
    }

    /** The activate handler: delete every cache whose name is neither current name,
        then claim the open clients. Returns the deleted names. */
    method Activate() returns (deleted: seq<string>)
      requires Valid()
      modifies this
      ensures Valid()
      ensures deleted == Stale(old(names), CacheName, RuntimeCache)
      ensures names == Surviving(old(names), CacheName, RuntimeCache)
      ensures stores.Keys == old(stores).Keys * {CacheName, RuntimeCache}
      ensures forall n :: n in stores ==> stores[n] == old(stores)[n]
      ensures claimedClients && skippedWaiting == old(skippedWaiting)
    {
      deleted := Stale(names, CacheName, RuntimeCache);
      var kept := Surviving(names, CacheName, RuntimeCache);
      SurvivingDistinct(names, CacheName, RuntimeCache);
      names := kept;
      stores := map n | n in stores && (n == CacheName || n == RuntimeCache) :: stores[n];
      claimedClients := true;
    }

    /** `cacheFirstStrategy`; the background refresh that follows a hit is `Revalidate`. */
    method CacheFirst(req: Request, net: Fetched) returns (resp: Response)
      requires Valid()
      modifies this
      ensures Valid()
      ensures var s := CacheFirstStep(old(names), old(stores), req, net);
              resp == s.result && names == s.names && stores == s.stores
      ensures skippedWaiting == old(skippedWaiting) && claimedClients == old(claimedClients)
    {
      Open(CacheName);
      var cached := Lookup(stores, CacheName, Key(req));
      if cached.Some? {
        return cached.value;
      }
      match net {
        case NetworkError =>
          resp := Unavailable;
        case Ok(r) =>
          if r.status == 200 {
            stores := Put(stores, CacheName, Key(req), r);
          }
          resp := r;
      }
    }

    /** The background refresh after a cache-first hit: a status-200 response
        overwrites the entry; any other outcome, a rejected fetch included, changes
        nothing. A shell cache deleted in the meantime receives the write unseen. */
    method Revalidate(req: Request, net: Fetched)
      requires Valid()
      modifies this
      ensures Valid() && names == old(names)
      ensures stores == (if net.Ok? && net.response.status == 200 && CacheName in old(stores)
                         then Put(old(stores), CacheName, Key(req), net.response)
                         else old(stores))
      ensures skippedWaiting == old(skippedWaiting) && claimedClients == old(claimedClients)
    {
      if net.Ok? && net.response.status == 200 && CacheName in stores {
        stores := Put(stores, CacheName, Key(req), net.response);
      }
    }

    /** `networkFirstStrategy` */
    method NetworkFirst(req: Request, net: Fetched) returns (resp: Option<Response>)
      requires Valid()
      modifies this
      ensures Valid()
      ensures var s := NetworkFirstStep(old(names), old(stores), req, net);
              resp == s.result && names == s.names && stores == s.stores
      ensures skippedWaiting == old(skippedWaiting) && claimedClients == old(claimedClients)
    {
      match net {
        case Ok(r) =>
          if r.status == 200 && ShouldCache(req.pathname) {
            Open(RuntimeCache);
            stores := Put(stores, RuntimeCache, Key(req), r);
          }
          resp := Some(r);
        case NetworkError =>
          ghost var names0, stores0 := names, stores;
          Open(RuntimeCache);
          var cached := Lookup(stores, RuntimeCache, Key(req));
          if cached.Some? {
            resp := cached;
          } else if req.mode == Navigate {
            resp := MatchAll(names, stores, "/");
            if RuntimeCache !in stores0 {
              MatchAllIgnoresNewEmptyCache(names0, stores0, RuntimeCache, "/");
            }
          } else {
            resp := Some(OfflineJson);
          }
      }
    }

    /** `navigationHandler` */
    method Navigation(req: Request, net: Fetched) returns (resp: Response)
      requires Valid()
      modifies this
      ensures Valid()
      ensures var s := NavigationStep(old(names), old(stores), net);
              resp == s.result && names == s.names && stores == s.stores
      ensures skippedWaiting == old(skippedWaiting) && claimedClients == old(claimedClients)
    {
      match net {
        case Ok(r) =>
          resp := r;
        case NetworkError =>
          Open(CacheName);
          var cached := Lookup(stores, CacheName, "/");
          resp := if cached.Some? then cached.value else OfflinePage;
      }
    }

    /** The fetch listener: requests the router passes through are not intercepted and
        change nothing; each other request gets the response, and the cache effects, of
        the strategy the router chooses for it. */
    method HandleFetch(req: Request, selfOrigin: string, net: Fetched) returns (outcome: FetchOutcome)
      requires Valid()
      modifies this
      ensures Valid()
      ensures outcome == NotIntercepted <==> Route(req, selfOrigin) == PassThrough
      ensures Route(req, selfOrigin) == PassThrough ==> names == old(names) && stores == old(stores)
      ensures Route(req, selfOrigin) == CacheFirstHandler ==>
                var s := CacheFirstStep(old(names), old(stores), req, net);
                outcome == Responded(Some(s.result)) && names == s.names && stores == s.stores
      ensures Route(req, selfOrigin) == NetworkFirstHandler ==>
                var s := NetworkFirstStep(old(names), old(stores), req, net);
                outcome == Responded(s.result) && names == s.names && stores == s.stores
      ensures Route(req, selfOrigin) == NavigationHandler ==>
                var s := NavigationStep(old(names), old(stores), net);
                outcome == Responded(Some(s.result)) && names == s.names && stores == s.stores
      ensures skippedWaiting == old(skippedWaiting) && claimedClients == old(claimedClients)
    {
      match Route(req, selfOrigin) {
        case PassThrough =>
          outcome := NotIntercepted;
        case NetworkFirstHandler =>
          var r := NetworkFirst(req, net);
          outcome := Responded(r);
        case CacheFirstHandler =>
          var r := CacheFirst(req, net);
          outcome := Responded(Some(r));
        case NavigationHandler =>
          var r := Navigation(req, net);
          outcome := Responded(Some(r));
      }
    }
  }

  /** Filtering distinct names keeps them distinct. */
  lemma {:induction false} SurvivingDistinct(names: seq<string>, shell: string, runtime: string)
    requires Distinct(names)
    ensures Distinct(Surviving(names, shell, runtime))
    decreases |names|
  {
    if |names| > 0 {
      var tail := names[1..];
      assert Distinct(tail) by {
        forall i, j | 0 <= i < j < |tail| ensures tail[i] != tail[j] {
          assert tail[i] == names[i + 1] && tail[j] == names[j + 1];
        }
      }
      SurvivingDistinct(tail, shell, runtime);
      var rest := Surviving(tail, shell, runtime);
      assert names[0] !in tail by {
        forall k | 0 <= k < |tail| ensures tail[k] != names[0] {
          assert tail[k] == names[k + 1];
        }
      }
      assert names[0] !in rest;
      if names[0] == shell || names[0] == runtime {
        DistinctCons(names[0], rest);
      }
    }
  }

  /** A response cached by cache-first after a miss is the one served on the next
      cache-first request for the same key, whatever the network then does. */
  lemma MissThenHit(names: seq<string>, stores: map<string, Store>, req: Request, r: Response, net2: Fetched)
    requires Lookup(stores, CacheName, Key(req)).None? && r.status == 200
    ensures var s := CacheFirstStep(names, stores, req, Ok(r));
            CacheFirstStep(s.names, s.stores, req, net2).result == r
  {
  }
}
