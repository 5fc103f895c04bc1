/** Values the worker exchanges with the browser: responses, the outcome of a
    network fetch, and the atomic `cache.addAll` step of the Cache API. */
module Http {

  datatype Option<+T> = None | Some(value: T)

  /** A response as the worker sees it: its HTTP status and its body. */
  datatype Response = Response(status: int, body: seq<int>) {
    /** `response.ok`: the status is in the range 200-299. */
    predicate Ok() {
      200 <= status <= 299
    }
  }

  /** What `fetch(request)` settles to: any HTTP response (even a 404), or a
      rejection when the network itself fails. */
  datatype Fetched = Got(response: Response) | NetworkError(error: string)

  /** A cache: request URL to stored response. */
  type Cache = map<string, Response>

  /** The network, as seen from one handler run: what fetching each URL gives. */
  type Network = string -> Fetched

  /** Every URL of the batch fetched to a response whose status is ok. */
  predicate AllOk(urls: seq<string>, net: Network) {
    forall u | u in urls :: net(u).Got? && net(u).response.Ok()
  }

  /** The entries a successful `cache.addAll(urls)` writes. */
  function Fetch(urls: seq<string>, net: Network): (batch: Cache)
    requires AllOk(urls, net)
    ensures batch.Keys == set u | u in urls
    ensures forall u | u in batch :: batch[u] == net(u).response && batch[u].Ok()
  {
    map u | u in urls :: net(u).response
  }

  /** `cache.addAll(urls)`: all or nothing. If one fetch fails or answers with
      a status that is not ok, the promise rejects and the cache is unchanged. */
  function AddAll(cache: Cache, urls: seq<string>, net: Network): (r: Option<Cache>)
    ensures r.Some? <==> AllOk(urls, net)
    ensures r.Some? ==> r.value.Keys == cache.Keys + set u | u in urls
    ensures r.Some? ==> forall u | u in urls :: r.value[u] == net(u).response
    ensures r.Some? ==> forall u | u in cache && u !in urls :: r.value[u] == cache[u]
  {
    if AllOk(urls, net) then Some(cache + Fetch(urls, net)) else None
  }
}
