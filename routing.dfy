/** The fetch handler's decision (flutter_service_worker.js:195-216): leave
    the request to the browser, serve it online-first, or serve it cache-first. */
module Routing {
  import opened Keys
  import opened Lookup

  datatype Policy = Passthrough | OnlineFirst | CacheFirst

  /** The route of a request, given the resource test the handler applies. */
  function RouteBy(listed: string -> bool, origin: string, verb: string, url: string): (p: Policy)
    ensures p != Passthrough <==> verb == "GET" && listed(FetchKey(origin, url))
    ensures p == OnlineFirst <==> verb == "GET" && FetchKey(origin, url) == RootKey && listed(RootKey)
  {
    if verb != "GET" then Passthrough
    else
      var key := FetchKey(origin, url);
      if !listed(key) then Passthrough
      else if key == RootKey then OnlineFirst
      else CacheFirst
  }

  /** The route with own-property lookup: only GET requests for listed
      resources are intercepted, the root key online-first. */
  function Route(resources: Manifest, origin: string, verb: string, url: string): (p: Policy)
    ensures p != Passthrough ==> FetchKey(origin, url) in resources
  {
    RouteBy(key => Listed(resources, key), origin, verb, url)
  }

  /** The route as written, where `!RESOURCES[key]` also sees inherited names. */
  function RouteAsWritten(resources: Manifest, origin: string, verb: string, url: string): (p: Policy)
    ensures p != Passthrough <==> verb == "GET" && ListedAsWritten(resources, FetchKey(origin, url))
    ensures Route(resources, origin, verb, url) != Passthrough ==> p == Route(resources, origin, verb, url)
  {
    RouteBy(key => ListedAsWritten(resources, key), origin, verb, url)
  }

  /** Only GET requests for keys the manifest lists are intercepted; the root
      key goes online-first and every other listed key cache-first. */
  lemma RouteCharacterised(resources: Manifest, origin: string, verb: string, url: string)
    ensures Route(resources, origin, verb, url) == Passthrough
      <==> verb != "GET" || !Listed(resources, FetchKey(origin, url))
    ensures Route(resources, origin, verb, url) == OnlineFirst
      <==> verb == "GET" && FetchKey(origin, url) == RootKey && Listed(resources, RootKey)
    ensures Route(resources, origin, verb, url) == CacheFirst
      <==> verb == "GET" && FetchKey(origin, url) != RootKey && Listed(resources, FetchKey(origin, url))
  {
  }

  /** A `?v=` token does not change how a request is routed. */
  lemma RouteIgnoresVersion(resources: Manifest, origin: string, verb: string, path: string, token: string)
    requires IndexOf(path, VersionQuery) == -1
    ensures Route(resources, origin, verb, origin + "/" + path + VersionQuery + token)
         == Route(resources, origin, verb, origin + "/" + path)
  {
    FetchKeyIgnoresVersion(origin, path, token);
  }

  /** A versioned request for any listed key other than the root is served
      cache-first. */
  lemma VersionedResourceIsCacheFirst(resources: Manifest, origin: string, key: string, token: string)
    requires Listed(resources, key) && key != RootKey && key != ""
    requires IndexOf(key, VersionQuery) == -1 && !StartsWith(key, "#")
    ensures Route(resources, origin, "GET", origin + "/" + key + VersionQuery + token) == CacheFirst
  {
    FetchKeyOfVersionedUrl(origin, key, token);
  }

  /** `index.html` is a resource of its own: a versioned request for it is
      served cache-first, not online-first like the root. */
  lemma IndexHtmlIsCacheFirst(resources: Manifest, origin: string, token: string)
    requires Listed(resources, "index.html")
    ensures Route(resources, origin, "GET", origin + "/index.html" + VersionQuery + token) == CacheFirst
  {
    assert origin + "/index.html" + VersionQuery + token == origin + "/" + "index.html" + VersionQuery + token;
    PlainPath("index.html");
    VersionedResourceIsCacheFirst(resources, origin, "index.html", token);
  }

  /** As written, a GET for `origin/toString` is intercepted and served
      cache-first although no manifest lists it; the intended route leaves it
      to the browser. */
  lemma AsWrittenInterceptsInheritedName(resources: Manifest, origin: string)
    requires "toString" !in resources
    ensures RouteAsWritten(resources, origin, "GET", origin + "/toString") == CacheFirst
    ensures Route(resources, origin, "GET", origin + "/toString") == Passthrough
  {
    var url := origin + "/toString";
    PlainPath("toString");
    FetchKeyOfRequestUrl(origin, "toString");
    assert RequestUrl(origin, "toString") == url;
    assert FetchKey(origin, url) == "toString";
    assert ListedAsWritten(resources, "toString");
  }
}
