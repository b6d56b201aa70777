/**
 * The service worker of public/sw.js: `install` precaches the application
 * shell, `fetch` answers cache-first with a write-through for good network
 * responses, `activate` deletes every other cache generation, and `sync`
 * refreshes the emergency contacts kept in IndexedDB.
 *
 * CacheStorage (Service Workers, section 5.5) is an ordered map from cache
 * name to cache; a cache (section 5.4) maps a request URL to a response.
 * The network is a parameter: a function from URL to outcome.
 */
module ServiceWorker {
  import opened Js
  import opened Seqs

  const CacheName: string := "disaster-pwa-v1"
  const UrlsToCache: seq<string> := [
    "/",
    "/index.html",
    "/static/js/bundle.js",
    "/static/css/main.css",
    "/data/disasters.json",
    "/data/contacts.json",
    "/data/faq.json",
    "/data/quizzes/earthquake.json",
    "/data/quizzes/fire.json",
    "/data/quizzes/flood.json",
    "/data/quizzes/cyclone.json",
    "/data/quizzes/tsunami.json",
    "/manifest.json"
  ]
  /** The offline page served to document requests. */
  const ShellUrl: string := "/index.html"
  const SyncTag: string := "background-sync"
  const ContactsKey: string := "contacts"

  /** A response's `type`. */
  datatype ResponseType = Basic | Cors | Opaque | ErrorType

  datatype Response = Response(status: int, kind: ResponseType, body: Json)

  /** `request.method`, `request.url` and `request.destination`. */
  datatype Request = Request(url: string, httpMethod: string, destination: string)

  /** What `fetch` does: resolve with a response, or reject. */
  datatype Outcome = Delivered(response: Response) | Failure

  type Cache = map<string, Response>

  /** `cache.addAll` accepts a response only if its type is not "error" and
      its status is ok (200-299) and not 206. */
  predicate Cacheable(r: Response) {
    r.kind != ErrorType && 200 <= r.status <= 299 && r.status != 206
  }

  /** The fetch handler writes a response through only for status 200 and
      type "basic". */
  predicate WrittenThrough(r: Response) {
    r.status == 200 && r.kind == Basic
  }

  predicate Holds(caches: map<string, Cache>, name: string, url: string) {
    name in caches && url in caches[name]
  }

  /** The position, in creation order, of the first cache holding `url`. */
  function FirstHolder(names: seq<string>, caches: map<string, Cache>, url: string): (r: Option<nat>)
    ensures r.Some? ==> r.value < |names| && Holds(caches, names[r.value], url)
    ensures r.Some? ==> forall j | 0 <= j < r.value :: !Holds(caches, names[j], url)
    ensures r.None? ==> forall j | 0 <= j < |names| :: !Holds(caches, names[j], url)
  {
    if names == [] then None
    else if Holds(caches, names[0], url) then Some(0)
    else
      var rest := FirstHolder(names[1..], caches, url);
      assert forall j | 1 <= j < |names| :: names[j] == names[1..][j - 1];
      if rest.Some? then Some(rest.value + 1) else None
  }

  /** `caches.match(request)`: only GET requests match; the caches are
      searched in creation order and the first hit answers. */
  function MatchIn(names: seq<string>, caches: map<string, Cache>, httpMethod: string, url: string): (r: Option<Response>)
    ensures r.Some? <==> httpMethod == "GET" && exists name | name in names :: Holds(caches, name, url)
    ensures r.Some? ==> exists i | 0 <= i < |names| :: Holds(caches, names[i], url) && r.value == caches[names[i]][url]
  {
    if httpMethod != "GET" then None
    else
      var i := FirstHolder(names, caches, url);
      if i.Some? then Some(caches[names[i.value]][url]) else None
  }

  class WorkerState {
    /** Cache names in creation order. */
    var names: seq<string>
    var caches: map<string, Cache>
    /** The `emergencyContacts` object store of the `DisasterPWA` database. */
    var contacts: map<string, Json>

    predicate Valid()
      reads this
    {
      (set n | n in names) == caches.Keys
    }

    constructor ()
      ensures Valid() && names == [] && caches == map[] && contacts == map[]
    {
      names, caches, contacts := [], map[], map[];
    }

    function Match(httpMethod: string, url: string): Option<Response>
      reads this
    {
      MatchIn(names, caches, httpMethod, url)
    }

    /** `caches.open(name)`: an existing cache, or a new empty one appended
        to the creation order. */
    method OpenCache(name: string)
      requires Valid()
      modifies this
      ensures Valid() && contacts == old(contacts)
      ensures name in old(caches) ==> names == old(names) && caches == old(caches)
      ensures name !in old(caches) ==> names == old(names) + [name] && caches == old(caches)[name := map[]]
    {
      if name !in caches {
        names := names + [name];
        caches := caches[name := map[]];
      }
    }

    /** `caches.delete(name)`. */
    method DeleteCache(name: string) returns (existed: bool)
      requires Valid()
      modifies this
      ensures Valid() && contacts == old(contacts)
      ensures existed <==> name in old(caches)
      ensures caches == old(caches) - {name}
      ensures forall n :: n in names <==> n in old(names) && n != name
    {
      existed := name in caches;
      FilterSpec(x => x != name, names);
      names := Filter(x => x != name, names);
      caches := caches - {name};
    }

    /** `cache.addAll(urls)` on an open cache: every URL is fetched, and
        only if every response is acceptable are they all stored. */
    method AddAll(name: string, urls: seq<string>, net: string -> Outcome) returns (ok: bool)
      requires Valid() && name in caches
      modifies this
      ensures Valid() && names == old(names) && contacts == old(contacts)
      ensures ok <==> forall u | u in urls :: net(u).Delivered? && Cacheable(net(u).response)
      ensures caches == old(caches)[name :=
        if ok then old(caches)[name] + (map u | u in urls && net(u).Delivered? :: net(u).response) else old(caches)[name]]
    {
      var batch: Cache := map[];
      var i := 0;
      while i < |urls|
        invariant 0 <= i <= |urls|
        invariant forall j | 0 <= j < i :: net(urls[j]).Delivered? && Cacheable(net(urls[j]).response)
        invariant batch == map u | u in urls[..i] && net(u).Delivered? :: net(u).response
      {
        var out := net(urls[i]);
        if !out.Delivered? || !Cacheable(out.response) {
          return false;
        }
        assert urls[..i + 1] == urls[..i] + [urls[i]];
        batch := batch[urls[i] := out.response];
        i := i + 1;
      }
      assert urls[..i] == urls;
      caches := caches[name := caches[name] + batch];
      ok := true;
    }

    /** The `install` handler: open `CacheName`, then `addAll` the thirteen
        application URLs. The batch is all or nothing: one failed or
        unacceptable fetch rejects it and stores none of them, though the
        cache itself has been created by then. */
    method Install(net: string -> Outcome) returns (ok: bool)
      requires Valid()
      modifies this
      ensures Valid() && contacts == old(contacts)
      ensures names == if CacheName in old(caches) then old(names) else old(names) + [CacheName]
      ensures ok <==> forall u | u in UrlsToCache :: net(u).Delivered? && Cacheable(net(u).response)
      ensures
        var base := if CacheName in old(caches) then old(caches)[CacheName] else map[];
        caches == old(caches)[CacheName :=
          if ok then base + (map u | u in UrlsToCache && net(u).Delivered? :: net(u).response) else base]
    {
      OpenCache(CacheName);
      ok := AddAll(CacheName, UrlsToCache, net);
    }

    /** The `fetch` handler. A cached response answers without touching the
        network. On a miss the network answers; a 200 "basic" response is
        also written into `CacheName` under the request's URL (a non-GET
        request cannot be stored, though the cache is opened). When the
        network fails, a document request gets the cached app shell and any
        other request gets nothing. */
    method HandleFetch(req: Request, net: Outcome) returns (served: Option<Response>, usedNetwork: bool)
      requires Valid()
      modifies this
      ensures Valid() && contacts == old(contacts)
      ensures old(Match(req.httpMethod, req.url)).Some? ==>
        served == old(Match(req.httpMethod, req.url)) && !usedNetwork && names == old(names) && caches == old(caches)
      ensures old(Match(req.httpMethod, req.url)).None? ==> usedNetwork
      ensures old(Match(req.httpMethod, req.url)).None? && net.Failure? ==>
        && names == old(names) && caches == old(caches)
        && served == (if req.destination == "document" then old(Match("GET", ShellUrl)) else None)
      ensures old(Match(req.httpMethod, req.url)).None? && net.Delivered? ==> served == Some(net.response)
      ensures old(Match(req.httpMethod, req.url)).None? && net.Delivered? && !WrittenThrough(net.response) ==>
        names == old(names) && caches == old(caches)
      ensures old(Match(req.httpMethod, req.url)).None? && net.Delivered? && WrittenThrough(net.response) ==>
        var base := if CacheName in old(caches) then old(caches)[CacheName] else map[];
        && names == (if CacheName in old(caches) then old(names) else old(names) + [CacheName])
        && caches == old(caches)[CacheName := if req.httpMethod == "GET" then base[req.url := net.response] else base]
    {
      served := Match(req.httpMethod, req.url);
      if served.Some? {
        return served, false;
      }
      usedNetwork := true;
      match net {
        case Failure =>
          if req.destination == "document" {
            served := Match("GET", ShellUrl);
          }
        case Delivered(response) =>
          if WrittenThrough(response) {
            OpenCache(CacheName);
            if req.httpMethod == "GET" {
              caches := caches[CacheName := caches[CacheName][req.url := response]];
            }
          }
          served := Some(response);
      }
    }

    /** The `activate` handler: every cache whose name is not `CacheName` is
        deleted; the current generation keeps its entries. */
    method Activate()
      requires Valid()
      modifies this
      ensures Valid() && contacts == old(contacts)
      ensures forall n :: n in names <==> n == CacheName && CacheName in old(caches)
      ensures caches == if CacheName in old(caches) then map[CacheName := old(caches)[CacheName]] else map[]
    {
      var ns := names;
      var i := 0;
      while i < |ns|
        invariant 0 <= i <= |ns|
        invariant Valid() && contacts == old(contacts)
        invariant forall n :: n in caches <==> n in old(caches) && (n == CacheName || n !in ns[..i])
        invariant forall n | n in caches :: caches[n] == old(caches)[n]
      {
        if ns[i] != CacheName {
          var _ := DeleteCache(ns[i]);
        }
        assert ns[..i + 1] == ns[..i] + [ns[i]];
        i := i + 1;
      }
      assert ns[..i] == ns;
      assert old(caches).Keys == set n | n in ns;
      forall n
        ensures n in names <==> n in caches
      {
        assert n in names <==> n in (set m | m in names);
      }
    }

    /** The `sync` handler with `doBackgroundSync`: only the tag
        "background-sync" does anything. The contacts file is fetched and
        parsed (its status is not checked); on success the data is put under
        "contacts", and a network or parse failure is logged and changes
        nothing. */
    method HandleSync(tag: string, contactsFetch: Fetch)
      requires Valid()
      modifies this
      ensures Valid() && names == old(names) && caches == old(caches)
      ensures tag == SyncTag && contactsFetch.Responded? && contactsFetch.json.Some? ==>
        contacts == old(contacts)[ContactsKey := contactsFetch.json.value]
      ensures !(tag == SyncTag && contactsFetch.Responded? && contactsFetch.json.Some?) ==>
        contacts == old(contacts)
    {
      if tag == SyncTag && contactsFetch.Responded? && contactsFetch.json.Some? {
        contacts := contacts[ContactsKey := contactsFetch.json.value];
      }
    }
  }

  /** The caches left by `activate` hold no name but `CacheName`. */
  lemma ActivatedMatchesCurrentOnly(caches: map<string, Cache>, names: seq<string>, url: string)
    requires forall n | n in names :: n == CacheName
    ensures MatchIn(names, caches, "GET", url).Some? <==> Holds(caches, CacheName, url) && CacheName in names
  {
  }

  /** With one generation cached, a request is answered from the first cache
      that holds it, so a stale generation created earlier wins over the
      current one until `activate` removes it. */
  lemma StaleGenerationAnswersFirst(caches: map<string, Cache>, stale: string, url: string)
    requires stale != CacheName && Holds(caches, stale, url) && Holds(caches, CacheName, url)
    ensures MatchIn([stale, CacheName], caches, "GET", url) == Some(caches[stale][url])
  {
  }

  /** The thirteen URLs are distinct, so a successful install adds exactly
      thirteen entries to an empty cache. */
  lemma UrlsToCacheDistinct()
    ensures forall i, j | 0 <= i < j < |UrlsToCache| :: UrlsToCache[i] != UrlsToCache[j]
  {
  }
}
