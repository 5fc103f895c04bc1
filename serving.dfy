/** The two serving policies of the fetch handler and the handler itself.
    Each policy is a function of the active cache and the outcome the network
    would give, and returns what the page receives and the active cache
    afterwards. The cache is looked up by the full request URL, `?v=` query
    included. */
module Serving {
  import opened Http
  import opened Keys
  import opened Lookup
  import opened Routing

  /** What the page's request settles to. */
  datatype Served = Respond(response: Response) | Reject(error: string)

  /** The result of serving one request. */
  datatype Outcome = Outcome(served: Served, active: Cache, usedNetwork: bool)

  /** A fetch outcome passed on to the page as it is. */
  function Forward(network: Fetched): (s: Served)
    ensures s.Respond? <==> network.Got?
    ensures network.Got? ==> s.response == network.response
    ensures network.NetworkError? ==> s.error == network.error
  {
    match network
    case Got(response) => Respond(response)
    case NetworkError(error) => Reject(error)
  }

  /** Cache-first (flutter_service_worker.js:217-230): a stored response is
      returned without going to the network; on a miss the network answer is
      returned, and stored only when its status is ok; a network failure
      reaches the page. */
  function ServeCacheFirst(active: Cache, url: string, network: Fetched): (r: Outcome)
    ensures url in active ==> r == Outcome(Respond(active[url]), active, false)
    ensures url !in active ==> r.usedNetwork && r.served == Forward(network)
    ensures url !in active && network.Got? && network.response.Ok() ==>
      r.active == active[url := network.response]
    ensures url !in active && !(network.Got? && network.response.Ok()) ==> r.active == active
  {
    if url in active then Outcome(Respond(active[url]), active, false)
    else match network
      case Got(response) =>
        var active' := if response.Ok() then active[url := response] else active;
        Outcome(Respond(response), active', true)
      case NetworkError(error) => Outcome(Reject(error), active, true)
  }

  /** Online-first (flutter_service_worker.js:266-284): the network is always
      tried first and whatever response it gives is stored and returned; when
      the network fails the stored copy is returned if there is one, and
      otherwise the network's error, with the cache unchanged. */
  function ServeOnlineFirst(active: Cache, url: string, network: Fetched): (r: Outcome)
    ensures r.usedNetwork
    ensures network.Got? ==> r.served == Respond(network.response) && r.active == active[url := network.response]
    ensures network.NetworkError? ==> r.active == active
    ensures network.NetworkError? && url in active ==> r.served == Respond(active[url])
    ensures network.NetworkError? && url !in active ==> r.served == Reject(network.error)
  {
    match network
    case Got(response) => Outcome(Respond(response), active[url := response], true)
    case NetworkError(error) =>
      if url in active then Outcome(Respond(active[url]), active, true)
      else Outcome(Reject(error), active, true)
  }

  /** The fetch handler (flutter_service_worker.js:195-231): `None` when the
      request is left to the browser, otherwise the outcome of its policy. */
  function HandleFetch(resources: Manifest, origin: string, verb: string, url: string, active: Cache, network: Fetched): (r: Option<Outcome>)
    ensures r.None? <==> verb != "GET" || !Listed(resources, FetchKey(origin, url))
    ensures r.Some? && FetchKey(origin, url) == RootKey ==> r.value == ServeOnlineFirst(active, url, network)
    ensures r.Some? && FetchKey(origin, url) != RootKey ==> r.value == ServeCacheFirst(active, url, network)
  {
    match Route(resources, origin, verb, url)
    case Passthrough => None
    case OnlineFirst => Some(ServeOnlineFirst(active, url, network))
    case CacheFirst => Some(ServeCacheFirst(active, url, network))
  }

  /** Serving never removes an entry or changes any URL but the request's. */
  lemma ServingOnlyTouchesRequest(resources: Manifest, origin: string, verb: string, url: string, active: Cache, network: Fetched)
    ensures var r := HandleFetch(resources, origin, verb, url, active, network);
      r.Some? ==> (active.Keys <= r.value.active.Keys
        && forall u | u in active && u != url :: r.value.active[u] == active[u])
  {
  }

  /** Once cache-first has served an ok response, or found one stored, the
      next request for the URL gets the same response without the network,
      whatever the network would do. */
  lemma CacheFirstThenHit(active: Cache, url: string, first: Fetched, second: Fetched)
    requires var r := ServeCacheFirst(active, url, first);
      r.served.Respond? && (url in active || r.served.response.Ok())
    ensures var r := ServeCacheFirst(active, url, first);
      ServeCacheFirst(r.active, url, second) == Outcome(r.served, r.active, false)
  {
  }

  /** Online-first keeps the landing document available offline: after a
      request that reached the network, a later request made while offline
      is answered with that same response. */
  lemma OnlineFirstThenOffline(active: Cache, url: string, response: Response, error: string)
    ensures var r := ServeOnlineFirst(active, url, Got(response));
      ServeOnlineFirst(r.active, url, NetworkError(error)) == Outcome(Respond(response), r.active, true)
  {
  }

  /** Online-first surfaces a network error only when nothing is stored. */
  lemma OnlineFirstRejectsOnlyWhenUncached(active: Cache, url: string, network: Fetched)
    ensures ServeOnlineFirst(active, url, network).served.Reject? <==> network.NetworkError? && url !in active
  {
  }

  /** Requests the manifest does not list never reach the network through the
      worker and never change the cache. */
  lemma UnlistedPassesThrough(resources: Manifest, origin: string, url: string, active: Cache, network: Fetched)
    requires !Listed(resources, FetchKey(origin, url))
    ensures HandleFetch(resources, origin, "GET", url, active, network).None?
  {
  }
}
