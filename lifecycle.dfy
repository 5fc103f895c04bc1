/** The worker's persistent state and its lifecycle handlers. Three named
    caches outlive any one worker version: ACTIVE (`flutter-app-cache`), the
    cache that is served; TEMP (`flutter-temp-cache`), where install stages
    the application shell; and the record (`flutter-app-manifest`), whose
    single `manifest` entry is the manifest that ACTIVE reflects. The build
    supplies each worker version its configuration. */
module Lifecycle {
  import opened Http
  import opened Keys
  import opened Lookup
  import opened Serving

  /** Build-time configuration: the site origin, the manifest `RESOURCES`
      and the shell list `CORE`. */
  datatype Config = Config(origin: string, resources: Manifest, core: seq<string>)

  /** The URLs of `new Request(key)` for each key, in order. */
  function Requests(origin: string, keys: seq<string>): (urls: seq<string>)
    ensures |urls| == |keys|
    ensures forall i | 0 <= i < |keys| :: urls[i] == RequestUrl(origin, keys[i])
  {
    seq(|keys|, i requires 0 <= i < |keys| => RequestUrl(origin, keys[i]))
  }

  /** The keys of the cached requests, as the activate handler and
      `downloadOffline` derive them. */
  function CachedKeys(origin: string, cache: Cache): (keys: set<string>)
    ensures forall u | u in cache :: ActivateKey(origin, u) in keys
    ensures forall k | k in keys :: exists u | u in cache :: ActivateKey(origin, u) == k
  {
    set u | u in cache :: ActivateKey(origin, u)
  }

  /** ACTIVE after the reconciliation step of an upgrade from `previous`
      (flutter_service_worker.js:158-171): the entries whose key is listed
      at the fingerprint `previous` recorded, with their stored responses. */
  function Reconciled(active: Cache, cfg: Config, previous: Manifest): (r: Cache)
    ensures r.Keys <= active.Keys
    ensures forall u | u in r :: r[u] == active[u] && Listed(cfg.resources, ActivateKey(cfg.origin, u))
  {
    map u | u in active && Keeps(cfg.resources, previous, ActivateKey(cfg.origin, u)) :: active[u]
  }

  /** The same step with the survival test as written, which also keeps
      entries stored under an inherited name such as `constructor`. */
  function ReconciledAsWritten(active: Cache, cfg: Config, previous: Manifest): (r: Cache)
    ensures Reconciled(active, cfg, previous).Keys <= r.Keys <= active.Keys
    ensures forall u | u in r :: r[u] == active[u] && ListedAsWritten(cfg.resources, ActivateKey(cfg.origin, u))
  {
    map u | u in active && KeepsAsWritten(cfg.resources, previous, ActivateKey(cfg.origin, u)) :: active[u]
  }

  /** ACTIVE after a successful activate: with no record, exactly TEMP;
      with a record, the reconciled entries overwritten by TEMP. */
  function Upgraded(active: Cache, temp: Cache, cfg: Config, record: Option<Manifest>): (r: Cache)
    ensures temp.Keys <= r.Keys <= active.Keys + temp.Keys
    ensures forall u | u in temp :: r[u] == temp[u]
    ensures forall u | u in r && u !in temp :: r[u] == active[u]
  {
    match record
    case None => temp
    case Some(previous) => Reconciled(active, cfg, previous) + temp
  }

  class Caches {
    var active: Cache
    var temp: Cache
    var record: Option<Manifest>

    /** A fresh origin: no cache exists yet. */
    constructor ()
      ensures active == map[] && temp == map[] && record == None
    {
      active, temp, record := map[], map[], None;
    }

    /** The install handler (flutter_service_worker.js:124-132): stage the
        shell in TEMP, all or nothing. */
    method Install(cfg: Config, net: Network) returns (ok: bool)
      modifies this`temp
      ensures ok == AllOk(Requests(cfg.origin, cfg.core), net)
      ensures ok ==> temp == old(temp) + Fetch(Requests(cfg.origin, cfg.core), net)
      ensures !ok ==> temp == old(temp)
    {
      var staged := AddAll(temp, Requests(cfg.origin, cfg.core), net);
      ok := staged.Some?;
      if ok {
        temp := staged.value;
      }
    }

    /** The reconciliation loop (flutter_service_worker.js:160-171): delete
        every ACTIVE entry whose key is not listed, or whose fingerprint is
        not the one `previous` recorded. */
    method Reconcile(cfg: Config, previous: Manifest)
      modifies this`active
      ensures active == Reconciled(old(active), cfg, previous)
    {
      ghost var before := active;
      var requests := active.Keys;
      while requests != {}
        invariant requests <= before.Keys
        invariant active == map u | u in before
          && (u in requests || Keeps(cfg.resources, previous, ActivateKey(cfg.origin, u))) :: before[u]
        decreases requests
      {
        var request :| request in requests;
        var key := ActivateKey(cfg.origin, request);
        if !Listed(cfg.resources, key) || key !in previous || cfg.resources[key] != previous[key] {
          active := active - {request};
        }
        requests := requests - {request};
      }
    }

    /** The promotion loop (flutter_service_worker.js:147-150, 174-177): put
        every TEMP entry into ACTIVE, overwriting what is there. */
    method Promote()
      modifies this`active
      ensures active == old(active) + temp
    {
      ghost var before := active;
      var requests := temp.Keys;
      while requests != {}
        invariant requests <= temp.Keys
        invariant active == before + map u | u in temp && u !in requests :: temp[u]
        decreases requests
      {
        var request :| request in requests;
        var response := temp[request];
        active := active[request := response];
        requests := requests - {request};
      }
    }

    /** The activate handler (flutter_service_worker.js:136-192). With no
        record ACTIVE is deleted and rebuilt from TEMP; with one it is
        reconciled and then overwritten by TEMP. Either way TEMP is deleted
        and the record becomes the new manifest. `fault` says whether some
        storage step rejected: the handler's catch then deletes all three
        caches, so the end state does not depend on how far the run got, and
        the model lets the rejection land after the last step. */
    method Activate(cfg: Config, fault: bool)
      modifies this
      ensures fault ==> active == map[] && temp == map[] && record == None
      ensures !fault ==> active == Upgraded(old(active), old(temp), cfg, old(record))
      ensures !fault ==> temp == map[] && record == Some(cfg.resources)
    {
      match record {
        case None =>
          active := map[];
          Promote();
        case Some(previous) =>
          Reconcile(cfg, previous);
          Promote();
      }
      temp := map[];
      record := Some(cfg.resources);
      if fault {
        active, temp, record := map[], map[], None;
      }
    }

    /** A fetch event (flutter_service_worker.js:195-231, 266-284): the
        answer the page gets, `None` when the browser handles the request,
        and ACTIVE as the serving policy leaves it. */
    method OnFetch(cfg: Config, verb: string, url: string, network: Fetched) returns (answer: Option<Served>)
      modifies this`active
      ensures var r := HandleFetch(cfg.resources, cfg.origin, verb, url, old(active), network);
        && answer == (if r.Some? then Some(r.value.served) else None)
        && active == (if r.Some? then r.value.active else old(active))
    {
      var r := HandleFetch(cfg.resources, cfg.origin, verb, url, active, network);
      if r.Some? {
        answer := Some(r.value.served);
        active := r.value.active;
      } else {
        answer := None;
      }
    }

    /** `downloadOffline` (flutter_service_worker.js:246-263): request every
        manifest key that no ACTIVE entry derives, in one all-or-nothing
        `addAll`. Only ACTIVE can change. */
    method DownloadOffline(cfg: Config, net: Network) returns (requested: seq<string>, ok: bool)
      modifies this`active
      ensures forall k :: k in requested <==> k in cfg.resources && k !in CachedKeys(cfg.origin, old(active))
      ensures forall i, j | 0 <= i < j < |requested| :: requested[i] != requested[j]
      ensures requested == [] <==> cfg.resources.Keys <= CachedKeys(cfg.origin, old(active))
      ensures ok == AllOk(Requests(cfg.origin, requested), net)
      ensures ok ==> active == old(active) + Fetch(Requests(cfg.origin, requested), net)
      ensures !ok ==> active == old(active)
      ensures temp == old(temp) && record == old(record)
    {
      var current := CurrentKeys(active, cfg.origin);
      requested := MissingResources(cfg.resources, current);
      if requested != [] {
        assert requested[0] in requested;
      }
      var added := AddAll(active, Requests(cfg.origin, requested), net);
      ok := added.Some?;
      if ok {
        active := added.value;
      }
    }
  }

  /** The `currentContent` loop of `downloadOffline`
      (flutter_service_worker.js:249-256): the keys of the cached requests. */
  method CurrentKeys(cache: Cache, origin: string) returns (current: set<string>)
    ensures forall k :: k in current <==> exists u :: u in cache && ActivateKey(origin, u) == k
    ensures current == CachedKeys(origin, cache)
  {
    current := {};
    var requests := cache.Keys;
    while requests != {}
      invariant requests <= cache.Keys
      invariant current == set u | u in cache && u !in requests :: ActivateKey(origin, u)
      decreases requests
    {
      var request :| request in requests;
      current := current + {ActivateKey(origin, request)};
      requests := requests - {request};
    }
  }

  /** The `resources` loop of `downloadOffline`
      (flutter_service_worker.js:257-261): each manifest key not cached,
      once. */
  method MissingResources(resources: Manifest, current: set<string>) returns (missing: seq<string>)
    ensures forall k :: k in missing <==> k in resources && k !in current
    ensures forall i, j | 0 <= i < j < |missing| :: missing[i] != missing[j]
  {
    missing := [];
    var keys := resources.Keys;
    while keys != {}
      invariant keys <= resources.Keys
      invariant forall k :: k in missing <==> k in resources && k !in keys && k !in current
      invariant forall i, j | 0 <= i < j < |missing| :: missing[i] != missing[j]
      decreases keys
    {
      var key :| key in keys;
      if key !in current {
        missing := missing + [key];
      }
      keys := keys - {key};
    }
  }

  /** The keys `downloadOffline` requests as written
      (flutter_service_worker.js:249-261): `currentContent` is a plain object
      whose own properties are the current keys, each set to `true` (a truthy
      value, modelled as a non-empty string), and `!currentContent[key]` also
      sees the names it inherits from `Object.prototype`. */
  function MissingAsWritten(resources: Manifest, current: set<string>): (missing: set<string>)
    ensures forall k :: k in missing <==> k in resources && k !in current && k !in ObjectPrototypeNames
  {
    var content: Manifest := map c | c in current :: "true";
    set k | k in resources && !Truthy(Get(content, k))
  }

  /** As written, a manifest key naming an inherited member such as
      `constructor` is never requested, so even a successful
      `downloadOffline` leaves it uncached; the corrected step requests it
      (`MissingResources`) and completes (`DownloadCompletes`). */
  lemma AsWrittenDownloadSkipsInheritedName(origin: string, resources: Manifest, active: Cache, requested: seq<string>, net: Network)
    requires "constructor" in resources && "constructor" !in CachedKeys(origin, active)
    requires forall k :: k in requested <==> k in MissingAsWritten(resources, CachedKeys(origin, active))
    requires AllOk(Requests(origin, requested), net)
    ensures "constructor" !in requested
    ensures "constructor" !in CachedKeys(origin, active + Fetch(Requests(origin, requested), net))
  {
    var urls := Requests(origin, requested);
    var after := active + Fetch(urls, net);
    forall u | u in after ensures ActivateKey(origin, u) != "constructor" {
      if u !in active {
        var i :| 0 <= i < |urls| && urls[i] == u;
        if requested[i] == "" || requested[i] == RootKey {
          assert u == origin + "/";
          SubstringAfterOrigin(origin, "");
          assert origin + "/" + "" == origin + "/";
        } else {
          ActivateKeyOfRequestUrl(origin, requested[i]);
          assert requested[i] in requested;
        }
      }
    }
  }

  /** Membership after a successful activate: an URL is in ACTIVE exactly
      when TEMP staged it, or a record existed and the URL was cached under a
      key the new manifest lists at the recorded fingerprint. */
  lemma UpgradeMembership(active: Cache, temp: Cache, cfg: Config, record: Option<Manifest>, url: string)
    ensures url in Upgraded(active, temp, cfg, record) <==>
      (url in temp
        || (record.Some? && url in active && Keeps(cfg.resources, record.value, ActivateKey(cfg.origin, url))))
  {
  }

  /** Responses after a successful activate: TEMP wins, and a survivor keeps
      the response stored before, untouched. */
  lemma UpgradeResponses(active: Cache, temp: Cache, cfg: Config, record: Option<Manifest>, url: string)
    requires url in Upgraded(active, temp, cfg, record)
    ensures url in temp ==> Upgraded(active, temp, cfg, record)[url] == temp[url]
    ensures url !in temp ==> url in active && Upgraded(active, temp, cfg, record)[url] == active[url]
  {
  }

  /** A cached key whose fingerprint changed, or that the recorded manifest
      lacks, or that the new manifest no longer lists, is evicted unless
      TEMP supplies it afresh. */
  lemma UpgradeEvictsStale(active: Cache, temp: Cache, cfg: Config, previous: Manifest, url: string)
    requires url !in temp
    requires var key := ActivateKey(cfg.origin, url);
      !Listed(cfg.resources, key) || key !in previous || previous[key] != cfg.resources[key]
    ensures url !in Upgraded(active, temp, cfg, Some(previous))
  {
  }

  /** The first activation seeds ACTIVE from TEMP alone, whatever ACTIVE
      held before. */
  lemma FirstActivationSeedsFromTemp(active: Cache, temp: Cache, cfg: Config)
    ensures Upgraded(active, temp, cfg, None) == temp
  {
  }

  /** An upgrade between manifests that agree on `a` but not on `b`, with
      nothing staged, keeps the cached `a` and evicts `b`. */
  lemma UpgradeKeepsUnchangedFile(origin: string, a: Response, b: Response)
    ensures var cached := map[origin + "/a" := a, origin + "/b" := b];
      var cfg := Config(origin, map["a" := "h1", "b" := "h3"], []);
      Upgraded(cached, map[], cfg, Some(map["a" := "h1", "b" := "h2"])) == map[origin + "/a" := a]
  {
    ActivateKeyOfRequestUrl(origin, "a");
    ActivateKeyOfRequestUrl(origin, "b");
    assert RequestUrl(origin, "a") == origin + "/a";
    assert RequestUrl(origin, "b") == origin + "/b";
    assert origin + "/a" != origin + "/b" by {
      assert (origin + "/a")[|origin| + 1] != (origin + "/b")[|origin| + 1];
    }
  }

  /** Activating the same manifest again with nothing staged changes
      nothing, provided what TEMP staged derives listed keys. */
  lemma ReactivationIsIdentity(active: Cache, temp: Cache, cfg: Config, record: Option<Manifest>)
    requires forall u | u in temp :: Listed(cfg.resources, ActivateKey(cfg.origin, u))
    ensures var once := Upgraded(active, temp, cfg, record);
      Upgraded(once, map[], cfg, Some(cfg.resources)) == once
  {
  }

  /** An entry stored under `origin/?v=42`, which a versioned request for
      the root can store, derives the key `?v=42` at activate time and is
      evicted by the next upgrade unless the manifest lists that key. */
  lemma VersionedRootEntryEvicted(active: Cache, temp: Cache, cfg: Config, previous: Manifest)
    requires "?v=42" !in cfg.resources
    requires cfg.origin + "/?v=42" !in temp
    ensures cfg.origin + "/?v=42" !in Upgraded(active, temp, cfg, Some(previous))
  {
    VersionedRootKeysDiffer(cfg.origin);
  }

  /** As written, an entry stored under `origin/constructor` survives every
      upgrade between manifests that do not list it; the intended test
      evicts it. */
  lemma AsWrittenKeepsInheritedName(active: Cache, cfg: Config, previous: Manifest)
    requires cfg.origin + "/constructor" in active
    requires "constructor" !in cfg.resources && "constructor" !in previous
    ensures cfg.origin + "/constructor" in ReconciledAsWritten(active, cfg, previous)
    ensures cfg.origin + "/constructor" !in Reconciled(active, cfg, previous)
  {
    ActivateKeyOfRequestUrl(cfg.origin, "constructor");
    assert RequestUrl(cfg.origin, "constructor") == cfg.origin + "/constructor";
    InheritedNamesPassAsWritten(cfg.resources, previous, "constructor");
  }

  /** When no cached request derives an inherited name, the as-written
      reconciliation is the intended one. */
  lemma ReconciledAgreesOnOwnKeys(active: Cache, cfg: Config, previous: Manifest)
    requires forall u | u in active :: ActivateKey(cfg.origin, u) !in ObjectPrototypeNames
    ensures ReconciledAsWritten(active, cfg, previous) == Reconciled(active, cfg, previous)
  {
  }

  /** After a successful `downloadOffline` every manifest key is cached,
      provided no key is the empty string (which resolves to no key of its
      own). */
  lemma DownloadCompletes(origin: string, resources: Manifest, active: Cache, requested: seq<string>, net: Network)
    requires "" !in resources
    requires forall k :: k in requested <==> k in resources && k !in CachedKeys(origin, active)
    requires AllOk(Requests(origin, requested), net)
    ensures resources.Keys <= CachedKeys(origin, active + Fetch(Requests(origin, requested), net))
  {
    var urls := Requests(origin, requested);
    var after := active + Fetch(urls, net);
    forall k | k in resources ensures k in CachedKeys(origin, after) {
      if k in CachedKeys(origin, active) {
        var u :| u in active && ActivateKey(origin, u) == k;
        assert u in after;
      } else {
        var i :| 0 <= i < |requested| && requested[i] == k;
        ActivateKeyOfRequestUrl(origin, k);
        assert urls[i] in urls;
        assert urls[i] in after && ActivateKey(origin, urls[i]) == k;
      }
    }
  }

  /** `downloadOffline` only adds: no requested URL is already cached, so
      every stored response stays as it was. */
  lemma DownloadOnlyAdds(origin: string, resources: Manifest, active: Cache, requested: seq<string>, net: Network)
    requires "" !in resources
    requires forall k :: k in requested <==> k in resources && k !in CachedKeys(origin, active)
    requires AllOk(Requests(origin, requested), net)
    ensures forall u | u in active ::
      (u in active + Fetch(Requests(origin, requested), net)
        && (active + Fetch(Requests(origin, requested), net))[u] == active[u])
  {
    var urls := Requests(origin, requested);
    forall u | u in urls ensures u !in active {
      var i :| 0 <= i < |urls| && urls[i] == u;
      ActivateKeyOfRequestUrl(origin, requested[i]);
      assert u in active ==> ActivateKey(origin, u) in CachedKeys(origin, active);
    }
  }
}
