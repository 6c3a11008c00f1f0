/** The offline wrapper (service-worker.js): a fixed cache generation
    CACHE_NAME pre-filled with the app shell on install, every other
    generation deleted on activate, and a fetch handler that lets API calls
    through, serves the two critical files network-first and every other
    same-origin file cache-first.

    The browser's CacheStorage is a sequence of named caches in creation
    order (the order of `caches.keys()`, and the order `caches.match`
    searches); each cache maps a request URL to a response. */
module ServiceWorker {
  import opened Wrappers

  const CACHE_NAME: string := "books-by-nik-cache-v3"

  /** The app shell, as paths relative to the worker's origin. */
  const urlsToCache: seq<string> := [
    "/BooksByNIK-PWA/",
    "/BooksByNIK-PWA/index.html",
    "/BooksByNIK-PWA/script.js",
    "/BooksByNIK-PWA/manifest.json",
    "/BooksByNIK-PWA/icons/icon-192x192.png",
    "/BooksByNIK-PWA/icons/icon-512x512.png"
  ]

  /** The files that must be fresh whenever the network is reachable. */
  const networkFirstUrls: seq<string> := [
    "/BooksByNIK-PWA/index.html",
    "/BooksByNIK-PWA/script.js"
  ]

  /** The host of the catalog and order endpoints. */
  const API_HOST: string := "script.google.com"

  /** The parts of `new URL(event.request.url)` the handler reads. */
  datatype Request = Request(origin: string, pathname: string, href: string)

  /** A response as `fetch` resolves it: any HTTP status, not only 2xx. */
  datatype Response = Response(status: int, body: string)

  /** What `fetch(event.request)` does: resolve with a response, or reject. */
  datatype NetReply = Fetched(response: Response) | Offline

  datatype Route = PassThrough | NetworkFirst | CacheFirst | NotIntercepted

  /** What the page receives from the handler: no `respondWith` at all (the
      browser fetches on its own), a response, or a network error (a
      rejected promise, or `respondWith(undefined)` after a cache miss). */
  datatype FetchOutcome = Unhandled | Served(response: Response) | Failed

  datatype NamedCache = NamedCache(name: string, entries: map<string, Response>)

  lemma NetworkFirstUrlsArePrecached()
    ensures forall u :: u in networkFirstUrls ==> u in urlsToCache
  {
  }

  /** `s.includes(t)`. */
  predicate Contains(s: string, t: string)
    decreases |s|
  {
    t <= s || (s != [] && Contains(s[1..], t))
  }

  lemma {:induction false} ContainsAt(s: string, t: string, i: nat)
    requires i <= |s| && t <= s[i..]
    ensures Contains(s, t)
    decreases i
  {
    if i == 0 {
      assert s[0..] == s;
    } else {
      assert s[1..][i - 1..] == s[i..];
      ContainsAt(s[1..], t, i - 1);
    }
  }

  /** The converse of `ContainsAt`: `includes` holds only where the needle occurs. */
  lemma {:induction false} ContainsFound(s: string, t: string)
    requires Contains(s, t)
    ensures exists i :: 0 <= i <= |s| && t <= s[i..]
    decreases |s|
  {
    if t <= s {
      assert s[0..] == s;
    } else {
      ContainsFound(s[1..], t);
      var i :| 0 <= i <= |s[1..]| && t <= s[1..][i..];
      assert s[1..][i..] == s[i + 1..];
    }
  }

  /** The fetch handler's routing decision for a request seen by a worker
      whose own origin is `selfOrigin`. */
  function Classify(req: Request, selfOrigin: string): (route: Route)
    ensures route == PassThrough <==> Contains(req.href, API_HOST)
    ensures route == NetworkFirst <==>
      !Contains(req.href, API_HOST) && req.origin == selfOrigin && req.pathname in networkFirstUrls
    ensures route == CacheFirst <==>
      !Contains(req.href, API_HOST) && req.origin == selfOrigin && req.pathname !in networkFirstUrls
    ensures route == NotIntercepted <==> !Contains(req.href, API_HOST) && req.origin != selfOrigin
  {
    var isLocalAsset := req.origin == selfOrigin;
    var isApiCall := Contains(req.href, API_HOST);
    if isApiCall then PassThrough
    else if isLocalAsset && req.pathname in networkFirstUrls then NetworkFirst
    else if isLocalAsset then CacheFirst
    else NotIntercepted
  }

  /** `caches.keys()`. */
  function Names(caches: seq<NamedCache>): seq<string> {
    if caches == [] then [] else [caches[0].name] + Names(caches[1..])
  }

  /** No two caches share a name. */
  ghost predicate DistinctNames(caches: seq<NamedCache>) {
    caches == [] || (caches[0].name !in Names(caches[1..]) && DistinctNames(caches[1..]))
  }

  /** The contents of the cache called `name`; empty when there is none. */
  function Entries(caches: seq<NamedCache>, name: string): map<string, Response> {
    if caches == [] then map[]
    else if caches[0].name == name then caches[0].entries
    else Entries(caches[1..], name)
  }

  /** `caches.match(url)`: the first cache, in creation order, that holds `url`. */
  function Match(caches: seq<NamedCache>, url: string): Option<Response> {
    if caches == [] then None
    else if url in caches[0].entries then Some(caches[0].entries[url])
    else Match(caches[1..], url)
  }

  /** `caches.open(name)` followed by a `put` of every entry of `added`:
      the cache is created at the end when it does not exist yet. */
  function Stored(caches: seq<NamedCache>, name: string, added: map<string, Response>): (r: seq<NamedCache>)
    ensures Names(r) == if name in Names(caches) then Names(caches) else Names(caches) + [name]
    ensures Entries(r, name) == Entries(caches, name) + added
    ensures forall n :: n != name ==> Entries(r, n) == Entries(caches, n)
  {
    if caches == [] then [NamedCache(name, added)]
    else if caches[0].name == name then [caches[0].(entries := caches[0].entries + added)] + caches[1..]
    else [caches[0]] + Stored(caches[1..], name, added)
  }

  /** `caches.delete(n)` for every `n` in `doomed`. */
  function Dropped(caches: seq<NamedCache>, doomed: set<string>): seq<NamedCache> {
    if caches == [] then []
    else if caches[0].name in doomed then Dropped(caches[1..], doomed)
    else [caches[0]] + Dropped(caches[1..], doomed)
  }

  /** The app shell's URLs, resolved against the worker's origin. */
  function ShellUrls(origin: string): set<string> {
    set p | p in urlsToCache :: origin + p
  }

  /** What `cache.addAll(urlsToCache)` stores when every fetch succeeds. */
  function Precache(origin: string, net: string -> Response): map<string, Response> {
    map u | u in ShellUrls(origin) :: net(u)
  }

  /** What `respondWith(caches.match(...))` delivers to the page. */
  function FromCache(hit: Option<Response>): FetchOutcome {
    match hit
    case Some(r) => Served(r)
    case None => Failed
  }

  // ---------------------------------------------------------------------
  // Lemmas about the cache storage

  lemma {:induction false} NamesLength(caches: seq<NamedCache>)
    ensures |Names(caches)| == |caches|
  {
    if caches != [] {
      NamesLength(caches[1..]);
    }
  }

  lemma {:induction false} StoredDistinct(caches: seq<NamedCache>, name: string, added: map<string, Response>)
    requires DistinctNames(caches)
    ensures DistinctNames(Stored(caches, name, added))
  {
    if caches != [] && caches[0].name != name {
      StoredDistinct(caches[1..], name, added);
    }
  }

  lemma DroppedCons(c: NamedCache, rest: seq<NamedCache>, doomed: set<string>)
    ensures Dropped([c] + rest, doomed) == if c.name in doomed then Dropped(rest, doomed) else [c] + Dropped(rest, doomed)
  {
    assert ([c] + rest)[1..] == rest;
  }

  lemma NamesCons(c: NamedCache, rest: seq<NamedCache>)
    ensures Names([c] + rest) == [c.name] + Names(rest)
  {
    assert ([c] + rest)[1..] == rest;
  }

  lemma DroppedNothing(caches: seq<NamedCache>)
    ensures Dropped(caches, {}) == caches
  {
    if caches != [] {
      DroppedNothing(caches[1..]);
      assert caches == [caches[0]] + caches[1..];
    }
  }

  lemma {:induction false} DroppedTwice(caches: seq<NamedCache>, a: set<string>, b: set<string>)
    ensures Dropped(Dropped(caches, a), b) == Dropped(caches, a + b)
  {
    if caches != [] {
      var c, rest := caches[0], caches[1..];
      DroppedTwice(rest, a, b);
      if c.name !in a {
        DroppedCons(c, Dropped(rest, a), b);
      }
    }
  }

  lemma {:induction false} DroppedNames(caches: seq<NamedCache>, doomed: set<string>, n: string)
    ensures n in Names(Dropped(caches, doomed)) <==> n in Names(caches) && n !in doomed
  {
    if caches != [] {
      var c, rest := caches[0], caches[1..];
      DroppedNames(rest, doomed, n);
      if c.name !in doomed {
        NamesCons(c, Dropped(rest, doomed));
      }
    }
  }

  lemma {:induction false} DroppedDistinct(caches: seq<NamedCache>, doomed: set<string>)
    requires DistinctNames(caches)
    ensures DistinctNames(Dropped(caches, doomed))
  {
    if caches != [] {
      var c, rest := caches[0], caches[1..];
      DroppedDistinct(rest, doomed);
      DroppedNames(rest, doomed, c.name);
      if c.name !in doomed {
        var r := [c] + Dropped(rest, doomed);
        assert r[0] == c && r[1..] == Dropped(rest, doomed);
      }
    }
  }

  lemma {:induction false} DroppedEntries(caches: seq<NamedCache>, doomed: set<string>, n: string)
    requires n !in doomed
    ensures Entries(Dropped(caches, doomed), n) == Entries(caches, n)
  {
    if caches != [] {
      var c, rest := caches[0], caches[1..];
      DroppedEntries(rest, doomed, n);
      if c.name !in doomed {
        var r := [c] + Dropped(rest, doomed);
        assert r[0] == c && r[1..] == Dropped(rest, doomed);
      }
    }
  }

  lemma SecondNameListed(caches: seq<NamedCache>)
    requires |caches| > 1
    ensures caches[1].name in Names(caches)
  {
    assert Names(caches) == [caches[0].name] + Names(caches[1..]);
    assert Names(caches[1..]) == [caches[1].name] + Names(caches[2..]);
    assert caches[1..][1..] == caches[2..];
  }

  /** Distinct names that are all `n` leave room for one cache at most. */
  lemma OnlyOneNamed(caches: seq<NamedCache>, n: string)
    requires DistinctNames(caches)
    requires forall m :: m in Names(caches) ==> m == n
    ensures Names(caches) == if n in Names(caches) then [n] else []
  {
    if caches != [] {
      var c, rest := caches[0], caches[1..];
      assert Names(caches) == [c.name] + Names(rest);
      assert Names(caches)[0] == c.name;
      assert c.name in Names(caches);
      if rest != [] {
        SecondNameListed(caches);
        assert false;
      }
    }
  }

  /** The request URL of a shell file is in the pre-filled cache. */
  lemma ShellFileIsPrecached(origin: string, path: string, net: string -> Response)
    requires path in urlsToCache
    ensures origin + path in Precache(origin, net) && Precache(origin, net)[origin + path] == net(origin + path)
  {
    assert origin + path in ShellUrls(origin);
  }

  class Worker {
    /** `location.origin` of the worker. */
    const origin: string
    /** The browser's CacheStorage. */
    var caches: seq<NamedCache>

    ghost predicate Valid()
      reads this
    {
      DistinctNames(caches)
    }

    constructor (origin: string, existing: seq<NamedCache>)
      requires DistinctNames(existing)
      ensures Valid() && this.origin == origin && caches == existing
    {
      this.origin := origin;
      caches := existing;
    }

    /** The install handler: open CACHE_NAME and add the whole app shell. */
    method Install(net: string -> Response)
      requires Valid()
      requires forall p :: p in urlsToCache ==> 200 <= net(origin + p).status < 300
      modifies this
      ensures Valid()
      ensures caches == Stored(old(caches), CACHE_NAME, Precache(origin, net))
      ensures forall u :: u in urlsToCache ==>
        origin + u in Entries(caches, CACHE_NAME) && Entries(caches, CACHE_NAME)[origin + u] == net(origin + u)
    {
      StoredDistinct(caches, CACHE_NAME, Precache(origin, net));
      caches := Stored(caches, CACHE_NAME, Precache(origin, net));
      forall u | u in urlsToCache
        ensures origin + u in Entries(caches, CACHE_NAME) && Entries(caches, CACHE_NAME)[origin + u] == net(origin + u)
      {
        ShellFileIsPrecached(origin, u, net);
      }
    }

    /** The activate handler: delete every cache not on the whitelist. */
    method Activate()
      requires Valid()
      modifies this
      ensures Valid()
      ensures Names(caches) == if CACHE_NAME in Names(old(caches)) then [CACHE_NAME] else []
      ensures Entries(caches, CACHE_NAME) == Entries(old(caches), CACHE_NAME)
    {
      var cacheWhitelist := [CACHE_NAME];
      var cacheNames := Names(caches);
      ghost var doomed: set<string> := {};
      DroppedNothing(caches);
      for i := 0 to |cacheNames|
        invariant doomed == set n | n in cacheNames[..i] && n !in cacheWhitelist
        invariant caches == Dropped(old(caches), doomed)
      {
        assert cacheNames[..i + 1] == cacheNames[..i] + [cacheNames[i]];
        if cacheNames[i] !in cacheWhitelist {
          DroppedTwice(old(caches), doomed, {cacheNames[i]});
          caches := Dropped(caches, {cacheNames[i]});
          doomed := doomed + {cacheNames[i]};
        }
      }
      assert cacheNames[..|cacheNames|] == cacheNames;
      DroppedDistinct(old(caches), doomed);
      DroppedEntries(old(caches), doomed, CACHE_NAME);
      DroppedNames(old(caches), doomed, CACHE_NAME);
      forall m | m in Names(caches) ensures m == CACHE_NAME {
        DroppedNames(old(caches), doomed, m);
      }
      OnlyOneNamed(caches, CACHE_NAME);
    }

    /** The fetch handler, with the network's answer to `fetch(event.request)`
        given as `network`; `fetched` tells whether the handler called fetch. */
    method HandleFetch(request: Request, network: NetReply) returns (outcome: FetchOutcome, fetched: bool)
      requires Valid()
      modifies this
      ensures Valid()
      ensures Classify(request, origin).PassThrough? || Classify(request, origin).NotIntercepted? ==>
        outcome == Unhandled && !fetched && caches == old(caches)
      ensures Classify(request, origin).NetworkFirst? ==>
        && fetched
        && (network.Fetched? ==>
              outcome == Served(network.response) &&
              caches == Stored(old(caches), CACHE_NAME, map[request.href := network.response]))
        && (network.Offline? ==>
              outcome == FromCache(Match(old(caches), request.href)) && caches == old(caches))
      ensures Classify(request, origin).CacheFirst? ==>
        && caches == old(caches)
        && (Match(caches, request.href).Some? ==>
              outcome == Served(Match(caches, request.href).value) && !fetched)
        && (Match(caches, request.href).None? ==>
              fetched && outcome == (if network.Fetched? then Served(network.response) else Failed))
    {
      var isLocalAsset := request.origin == origin;
      var isApiCall := Contains(request.href, API_HOST);
      if isApiCall {
        return Unhandled, false;
      }
      if isLocalAsset && request.pathname in networkFirstUrls {
        fetched := true;
        match network {
          case Fetched(response) =>
            StoredDistinct(caches, CACHE_NAME, map[request.href := response]);
            caches := Stored(caches, CACHE_NAME, map[request.href := response]);
            outcome := Served(response);
          case Offline =>
            outcome := FromCache(Match(caches, request.href));
        }
        return;
      }
      if isLocalAsset {
        var cached := Match(caches, request.href);
        if cached.Some? {
          return Served(cached.value), false;
        }
        fetched := true;
        outcome := if network.Fetched? then Served(network.response) else Failed;
        return;
      }
      return Unhandled, false;
    }
  }

  /** A critical file stays available offline: whatever generations the
      browser held before, once this worker has installed and activated,
      a network-first request for a shell file that fails on the network is
      answered with the copy fetched at install time. */
  method OfflineAfterInstall(origin: string, existing: seq<NamedCache>, path: string, net: string -> Response)
    returns (outcome: FetchOutcome)
    requires DistinctNames(existing)
    requires path in networkFirstUrls
    requires !Contains(origin + path, API_HOST)
    requires forall p :: p in urlsToCache ==> 200 <= net(origin + p).status < 300
    ensures outcome == Served(net(origin + path))
  {
    var worker := new Worker(origin, existing);
    worker.Install(net);
    NetworkFirstUrlsArePrecached();
    assert CACHE_NAME in Names(worker.caches);
    worker.Activate();
    NamesLength(worker.caches);
    assert worker.caches[0].name == CACHE_NAME;
    var request := Request(origin, path, origin + path);
    var fetched;
    outcome, fetched := worker.HandleFetch(request, Offline);
  }
}
