/** The server's access-key operations, updating the key store and the quota cache in place. */
module KeyServer {
  import opened Options
  import opened AccessKeys
  import opened KeyLifecycle

  /** list holds exactly the records of these keys, in some order, each once. */
  ghost predicate Lists(store: map<string, KeyRecord>, keys: set<string>, list: seq<KeyRecord>) {
    && |list| == |keys|
    && (forall i :: 0 <= i < |list| ==>
          list[i].accessKey in keys && list[i].accessKey in store && list[i] == store[list[i].accessKey])
    && (forall k :: k in keys ==> exists i :: 0 <= i < |list| && list[i].accessKey == k)
  }

  lemma ListsAppend(store: map<string, KeyRecord>, keys: set<string>, list: seq<KeyRecord>, k: string)
    requires Lists(store, keys, list) && k !in keys && k in store && store[k].accessKey == k
    ensures Lists(store, keys + {k}, list + [store[k]])
  {
    var longer := list + [store[k]];
    forall j | j in keys + {k} ensures exists i :: 0 <= i < |longer| && longer[i].accessKey == j {
      if j == k {
        assert longer[|list|].accessKey == k;
      } else {
        var i :| 0 <= i < |list| && list[i].accessKey == j;
        assert longer[i].accessKey == j;
      }
    }
  }

  /** A listing of the active keys of a project, in whatever order the store returns them. */
  ghost predicate ListsActive(store: map<string, KeyRecord>, p: nat, list: seq<KeyRecord>) {
    Lists(store, Actives(World(store, map[]), p), list)
  }

  lemma NoDefaultListed(w: World, p: nat, list: seq<KeyRecord>)
    requires ListsActive(w.store, p, list) && forall j :: 0 <= j < |list| ==> !list[j].default
    ensures ActiveDefaults(w, p) == {}
  {
    forall k | k in Actives(World(w.store, map[]), p) ensures !w.store[k].default {
      var j :| 0 <= j < |list| && list[j].accessKey == k;
    }
  }

  lemma DefaultListed(w: World, p: nat, list: seq<KeyRecord>, j: nat)
    requires ListsActive(w.store, p, list) && j < |list| && list[j].default
    ensures list[j].accessKey in ActiveDefaults(w, p) && list[j] == w.store[list[j].accessKey]
  {
  }

  lemma SwitchedOffActives(w: World, key: string, deletes: bool)
    requires Keyed(w) && key in w.store
    ensures var off := Written(w, w.store[key].(active := false, default := false), deletes);
      Actives(off, w.store[key].projectId) == Actives(w, w.store[key].projectId) - {key}
  {
  }

  lemma ActivesStep(store: map<string, KeyRecord>, p: nat, todo: set<string>, key: string)
    requires key in todo && key in store
    ensures Actives(World(store, map[]), p) - (todo - {key}) ==
            (Actives(World(store, map[]), p) - todo)
            + (if store[key].projectId == p && store[key].active then {key} else {})
  {
  }

  /** What the store does for a listing. */
  method Listing(store: map<string, KeyRecord>, p: nat) returns (list: seq<KeyRecord>)
    requires Keyed(World(store, map[]))
    ensures ListsActive(store, p, list)
  {
    list := [];
    var todo := store.Keys;
    ghost var keys := Actives(World(store, map[]), p);
    assert keys - todo == {};
    while todo != {}
      invariant todo <= store.Keys
      invariant Lists(store, keys - todo, list)
      decreases |todo|
    {
      var key :| key in todo;
      ActivesStep(store, p, todo, key);
      if store[key].projectId == p && store[key].active {
        ListsAppend(store, keys - todo, list, key);
        list := list + [store[key]];
      }
      todo := todo - {key};
    }
    assert keys - todo == keys;
  }

  /** The assignments of UpdateAccessKey: each given field. */
  method Edit(existing: KeyRecord, edits: Edits) returns (k: KeyRecord)
    ensures k == Edited(existing, edits)
  {
    k := existing;
    if edits.displayName.Some? {
      k := k.(displayName := edits.displayName.value);
    }
    if edits.requireOrigin.Some? {
      k := k.(requireOrigin := edits.requireOrigin.value);
    }
    if edits.allowedOrigins.Some? {
      k := k.(allowedOrigins := edits.allowedOrigins.value);
    }
    if edits.allowedServices.Some? {
      k := k.(allowedServices := edits.allowedServices.value);
    }
  }

  class Server {
    var store: map<string, KeyRecord>
    var cache: map<string, KeyRecord>
    // How many more calls of the store succeed, and whether cache deletions do.
    var calls: nat
    var deletes: bool

    ghost predicate Valid()
      reads this
    {
      Keyed(World(store, cache))
    }

    ghost function Now(): World
      reads this
    {
      World(store, cache)
    }

    /** The state and the result are those of the specification. */
    ghost predicate Ends(out: Out, r: Result)
      reads this
    {
      Now() == out.world && calls == out.calls && r == out.result
    }

    constructor ()
      ensures Valid() && Now() == World(map[], map[]) && calls == 0 && deletes
    {
      store, cache, calls, deletes := map[], map[], 0, true;
    }

    method StoreCall() returns (ok: bool)
      modifies this`calls
      ensures ok <==> old(calls) > 0
      ensures calls == if ok then old(calls) - 1 else 0
    {
      ok := calls > 0;
      if ok {
        calls := calls - 1;
      }
    }

    method FindAccessKey(key: string) returns (r: Result)
      modifies this`calls
      ensures calls == if old(calls) > 0 then old(calls) - 1 else 0
      ensures r == if old(calls) == 0 then Err(StoreFailure) else if key in store then Ok(store[key]) else Err(NotFound)
    {
      var ok := StoreCall();
      if !ok {
        return Err(StoreFailure);
      }
      if key in store {
        return Ok(store[key]);
      }
      return Err(NotFound);
    }

    method ListActiveKeys(p: nat) returns (ok: bool, list: seq<KeyRecord>)
      requires Valid()
      modifies this`calls
      ensures ok <==> old(calls) > 0
      ensures calls == if ok then old(calls) - 1 else 0
      ensures ok ==> ListsActive(store, p, list)
    {
      ok := StoreCall();
      list := [];
      if ok {
        list := Listing(store, p);
      }
    }

    method InsertAccessKey(k: KeyRecord) returns (ok: bool)
      requires Valid()
      modifies this`calls, this`store
      ensures Valid()
      ensures ok <==> old(calls) > 0
      ensures calls == if ok then old(calls) - 1 else 0
      ensures store == if ok then old(store)[k.accessKey := k] else old(store)
    {
      ok := StoreCall();
      if ok {
        store := store[k.accessKey := k];
      }
    }

    /** updateAccessKey: the store write and, if it worked, the cache deletion. */
    method WriteAccessKey(k: KeyRecord) returns (r: Result)
      requires Valid()
      modifies this`calls, this`store, this`cache
      ensures Valid() && Ends(Write(old(Now()), old(calls), k, deletes), r)
    {
      var ok := InsertAccessKey(k);
      if !ok {
        return Err(StoreFailure);
      }
      if deletes {
        cache := cache - {k.accessKey};
      }
      return Ok(k);
    }

    /** The first active default key of the listing; `pick` is the one found. */
    method GetDefaultAccessKey(p: nat) returns (r: Result, ghost pick: string)
      requires Valid()
      modifies this`calls
      ensures calls == if old(calls) > 0 then old(calls) - 1 else 0
      ensures ActiveDefaults(Now(), p) != {} ==> pick in ActiveDefaults(Now(), p)
      ensures r == if old(calls) == 0 then Err(StoreFailure)
                   else if ActiveDefaults(Now(), p) == {} then Err(NoDefaultKey)
                   else Ok(store[pick])
    {
      pick := "";
      if ActiveDefaults(Now(), p) != {} {
        pick :| pick in ActiveDefaults(Now(), p);
      }
      var ok, list := ListActiveKeys(p);
      if !ok {
        return Err(StoreFailure), pick;
      }
      var i := 0;
      while i < |list|
        invariant 0 <= i <= |list|
        invariant forall j :: 0 <= j < i ==> !list[j].default
      {
        if list[i].default {
          DefaultListed(Now(), p, list, i);
          return Ok(list[i]), list[i].accessKey;
        }
        i := i + 1;
      }
      NoDefaultListed(Now(), p, list);
      return Err(NoDefaultKey), pick;
    }

    method CreateAccessKey(p: nat, displayName: string, requireOrigin: bool, origins: seq<string>,
                           services: seq<nat>, validOrigins: bool, newKey: string)
      returns (r: Result)
      requires Valid()
      modifies this`calls, this`store
      ensures Valid()
      ensures Ends(CreateOut(old(Now()), old(calls), p, displayName, requireOrigin, origins, services,
                             validOrigins, newKey), r)
    {
      var ok, list := ListActiveKeys(p);
      if !ok {
        return Err(StoreFailure);
      }
      if !validOrigins {
        return Err(InvalidOrigins);
      }
      assert |list| == 0 <==> Actives(Now(), p) == {};
      var k := KeyRecord(p, displayName, newKey, true, |list| == 0, requireOrigin, origins, services);
      ok := InsertAccessKey(k);
      if !ok {
        return Err(StoreFailure);
      }
      return Ok(k);
    }

    method RotateAccessKey(key: string, validOrigins: bool, newKey: string) returns (r: Result)
      requires Valid()
      modifies this`calls, this`store, this`cache
      ensures Valid() && Ends(RotateOut(old(Now()), old(calls), deletes, key, validOrigins, newKey), r)
    {
      var found := FindAccessKey(key);
      if found.Err? {
        return found;
      }
      var existing := found.key;
      var isDefaultKey := existing.default;
      existing := existing.(active := false, default := false);
      r := WriteAccessKey(existing);
      if r.Err? {
        return;
      }
      r := CreateAccessKey(existing.projectId, existing.displayName, existing.requireOrigin,
                           existing.allowedOrigins, existing.allowedServices, validOrigins, newKey);
      if r.Err? {
        return;
      }
      if isDefaultKey {
        r := WriteAccessKey(r.key.(default := true));
      }
    }

    method UpdateAccessKey(key: string, edits: Edits, validOrigins: bool) returns (r: Result)
      requires Valid()
      modifies this`calls, this`store, this`cache
      ensures Valid() && Ends(UpdateOut(old(Now()), old(calls), deletes, key, edits, validOrigins), r)
    {
      r := FindAccessKey(key);
      if r.Err? {
        return;
      }
      if edits.allowedOrigins.Some? && !validOrigins {
        return Err(InvalidOrigins);
      }
      var k := Edit(r.key, edits);
      r := WriteAccessKey(k);
    }

    method SetDefaultAccessKey(p: nat, key: string) returns (r: Result, ghost pick: string)
      requires Valid()
      modifies this`calls, this`store, this`cache
      ensures Valid() && Picks(old(Now()), SetDefault(old(calls), deletes, p, key, pick))
      ensures Ends(SetDefaultOut(old(Now()), old(calls), deletes, p, key, pick), r)
    {
      pick := "";
      if ActiveDefaults(Now(), p) != {} {
        pick :| pick in ActiveDefaults(Now(), p);
      }
      r := FindAccessKey(key);
      if r.Err? {
        return;
      }
      var k := r.key;
      if k.projectId != p {
        return Err(PermissionDenied), pick;
      }
      var current;
      current, pick := GetDefaultAccessKey(p);
      if current.Err? {
        return current, pick;
      }
      if current.key.accessKey == k.accessKey {
        return;
      }
      r := WriteAccessKey(current.key.(default := false));
      if r.Err? {
        return;
      }
      r := WriteAccessKey(k.(default := true));
    }

    method DisableAccessKey(key: string) returns (r: Result, ghost pick: string)
      requires Valid()
      modifies this`calls, this`store, this`cache
      ensures Valid() && Picks(old(Now()), Disable(old(calls), deletes, key, pick))
      ensures Ends(DisableOut(old(Now()), old(calls), deletes, key, pick), r)
    {
      pick := "";
      if key in store && Actives(Now(), store[key].projectId) - {key} != {} {
        pick :| pick in Actives(Now(), store[key].projectId) - {key};
      }
      r := FindAccessKey(key);
      if r.Err? {
        return;
      }
      var k := r.key;
      var ok, list := ListActiveKeys(k.projectId);
      if !ok {
        return Err(StoreFailure), pick;
      }
      if |list| == 1 {
        return Err(AtLeastOneKey), pick;
      }
      r, pick := SwitchOff(key);
    }

    /** The writes of DisableAccessKey. */
    method SwitchOff(key: string) returns (r: Result, ghost pick: string)
      requires Valid() && key in store
      modifies this`calls, this`store, this`cache
      ensures Valid()
      ensures var rest := Actives(old(Now()), old(store[key]).projectId) - {key}; rest != {} ==> pick in rest
      ensures Ends(SwitchOffOut(old(Now()), old(calls), deletes, old(store[key]).(active := false, default := false), pick), r)
    {
      pick := "";
      if Actives(Now(), store[key].projectId) - {key} != {} {
        pick :| pick in Actives(Now(), store[key].projectId) - {key};
      }
      var k := store[key].(active := false, default := false);
      r := WriteAccessKey(k);
      if r.Err? {
        return;
      }
      r, pick := HandOver(k);
      SwitchedOffActives(old(Now()), key, deletes);
    }

    /** The end of DisableAccessKey: set another key of the project to default. */
    method HandOver(k: KeyRecord) returns (r: Result, ghost pick: string)
      requires Valid()
      modifies this`calls, this`store, this`cache
      ensures Valid()
      ensures Actives(old(Now()), k.projectId) != {} ==> pick in Actives(old(Now()), k.projectId)
      ensures Ends(HandOverOut(old(Now()), old(calls), deletes, k, pick), r)
    {
      pick := "";
      if Actives(Now(), k.projectId) != {} {
        pick :| pick in Actives(Now(), k.projectId);
      }
      var current, _ := GetDefaultAccessKey(k.projectId);
      if current != Err(NoDefaultKey) {
        return Ok(k), pick;
      }
      var listed, updated := ListActiveKeys(k.projectId);
      if !listed {
        return Err(StoreFailure), pick;
      }
      if |updated| == 0 {
        return Err(Panic), pick;
      }
      pick := updated[0].accessKey;
      r := WriteAccessKey(updated[0].(default := true));
      if r.Ok? {
        r := Ok(k);
      }
    }

    /** GetAccessQuota: three store calls, of which the second finds the project, and the cache fill. */
    method GetAccessQuota(key: string, knownProject: bool, caches: bool) returns (r: Result)
      modifies this`calls, this`cache
      ensures r == if old(calls) == 0 then Err(StoreFailure)
                   else if key !in store then Err(NotFound)
                   else if old(calls) == 1 then Err(StoreFailure)
                   else if !knownProject then Err(NotFound)
                   else if old(calls) == 2 then Err(StoreFailure)
                   else Ok(store[key])
      ensures cache == if r.Ok? && caches then old(cache)[key := store[key]] else old(cache)
    {
      r := FindAccessKey(key);
      if r.Err? {
        return;
      }
      var ok := StoreCall();
      if !ok {
        return Err(StoreFailure);
      }
      if !knownProject {
        return Err(NotFound);
      }
      ok := StoreCall();
      if !ok {
        return Err(StoreFailure);
      }
      if caches {
        cache := cache[key := r.key];
      }
    }

    /** FetchKeyQuota of a client that shares this cache. An unexpected error of the cache or the
        server gives neither a quota nor an error, so the request goes unmetered. */
    method FetchKeyQuota(key: string, cacheAnswers: bool, knownProject: bool, caches: bool,
                         projectChains: seq<nat>, chainIds: seq<nat>, origin: string, matches: bool, service: nat)
      returns (f: Fetched)
      modifies this`calls, this`cache
      ensures var fetches, asks := key in store && knownProject && old(calls) >= 3, key !in old(cache);
        && Now() == (if cacheAnswers && fetches then FetchOut(old(Now()), key, caches).world else old(Now()))
        && (f == NoQuota <==>
              !cacheAnswers
              || (asks && (old(calls) == 0 || (key in store && (old(calls) == 1 || (old(calls) == 2 && knownProject))))))
        && (f == Unknown <==>
              cacheAnswers && asks && old(calls) > 0 && (key in store ==> old(calls) > 1 && !knownProject))
        && (f.Quota? <==> cacheAnswers && (!asks || fetches))
        && (f.Quota? ==>
              f == Validated(if asks then store[key] else old(cache)[key], ValidChains(projectChains, chainIds),
                             origin, matches, service))
    {
      if !cacheAnswers {
        return NoQuota;
      }
      var k;
      if key in cache {
        k := cache[key];
      } else {
        var r := GetAccessQuota(key, knownProject, caches);
        if r.Err? {
          return if r.error == NotFound then Unknown else NoQuota;
        }
        k := r.key;
      }
      var invalid := ValidateChains(projectChains, chainIds);
      return Validated(k, invalid == [], origin, matches, service);
    }
  }

  /** What FetchKeyQuota returns: neither quota nor error, a not-found error, or a quota and perhaps
      the reason why it may not be used. */
  datatype Fetched = NoQuota | Unknown | Quota(key: KeyRecord, refused: Option<Refusal>)

  datatype Refusal = InvalidChain | InactiveKey | InvalidOrigin | InvalidService

  /** ValidateChains: the project allows every chain that is asked for. */
  predicate ValidChains(projectChains: seq<nat>, chainIds: seq<nat>) {
    projectChains == [] || forall i :: 0 <= i < |chainIds| ==> chainIds[i] in projectChains
  }

  /** Its loop: the chains asked for that the project does not allow, in order. */
  method ValidateChains(projectChains: seq<nat>, chainIds: seq<nat>) returns (invalid: seq<nat>)
    ensures invalid == [] <==> ValidChains(projectChains, chainIds)
    ensures projectChains == [] ==> invalid == []
    ensures projectChains != [] ==> forall id :: id in invalid <==> id in chainIds && id !in projectChains
  {
    invalid := [];
    if projectChains == [] {
      return;
    }
    for i := 0 to |chainIds|
      invariant forall id :: id in invalid <==> id in chainIds[..i] && id !in projectChains
      invariant invalid == [] <==> forall k :: 0 <= k < i ==> chainIds[k] in projectChains
    {
      if chainIds[i] !in projectChains {
        invalid := invalid + [chainIds[i]];
      }
    }
    assert chainIds[..|chainIds|] == chainIds;
  }

  /** ValidateOrigin; `matches` says whether the allowed origins match. */
  predicate ValidOrigin(k: KeyRecord, origin: string, matches: bool) {
    if origin == "" then !k.requireOrigin else matches
  }

  predicate ValidService(k: KeyRecord, service: nat) {
    k.allowedServices == [] || service in k.allowedServices
  }

  /** The checks of FetchKeyQuota in their order: ValidateChains, then validateAccessKey. */
  function Validated(k: KeyRecord, validChains: bool, origin: string, matches: bool, service: nat): Fetched {
    Quota(k,
          if !validChains then Some(InvalidChain)
          else if !k.active then Some(InactiveKey)
          else if !ValidOrigin(k, origin, matches) then Some(InvalidOrigin)
          else if !ValidService(k, service) then Some(InvalidService)
          else None)
  }

  /** Which refusal a quota comes with: the first that applies, in the order chains, activity, origin,
      service. A request without an origin passes unless the key requires one, a request with one
      must match, and an empty list of services or chains allows all. */
  lemma RefusalIsTheFirst(k: KeyRecord, projectChains: seq<nat>, chainIds: seq<nat>, origin: string, matches: bool,
                          service: nat)
    ensures var f := Validated(k, ValidChains(projectChains, chainIds), origin, matches, service);
      var chains := projectChains == [] || forall i :: 0 <= i < |chainIds| ==> chainIds[i] in projectChains;
      var anOrigin := (origin == "" && !k.requireOrigin) || (origin != "" && matches);
      var aService := k.allowedServices == [] || service in k.allowedServices;
      && f.Quota? && f.key == k
      && (f.refused == Some(InvalidChain) <==> !chains)
      && (f.refused == Some(InactiveKey) <==> chains && !k.active)
      && (f.refused == Some(InvalidOrigin) <==> chains && k.active && !anOrigin)
      && (f.refused == Some(InvalidService) <==> chains && k.active && anOrigin && !aService)
      && (f.refused == None <==> chains && k.active && anOrigin && aService)
  {
  }

  /** After any run of key operations and fetches with new keys and working invalidations, and
      whatever store calls fail, a fetch that finds a quota lets the request through exactly when the
      key that the store then holds is active and its fields allow the request. */
  lemma FetchPassesExactlyWhen(w: World, ops: seq<Op>, key: string, caches: bool, projectChains: seq<nat>,
                               chainIds: seq<nat>, origin: string, matches: bool, service: nat)
    requires Coherent(w) && Keyed(w) && AllFresh(w, ops) && forall i :: 0 <= i < |ops| ==> Deletes(ops[i])
    ensures var store := After(w, ops).store;
      var r := FetchOut(After(w, ops), key, caches).result;
      && (r.Ok? <==> key in store)
      && (r.Ok? ==>
            (Validated(r.key, ValidChains(projectChains, chainIds), origin, matches, service) == Quota(store[key], None)
             <==>
             && (projectChains == [] || forall i :: 0 <= i < |chainIds| ==> chainIds[i] in projectChains)
             && store[key].active
             && (origin == "" ==> !store[key].requireOrigin) && (origin != "" ==> matches)
             && (store[key].allowedServices == [] || service in store[key].allowedServices)))
  {
    CacheStaysCoherent(w, ops);
    if key in After(w, ops).store {
      RefusalIsTheFirst(After(w, ops).store[key], projectChains, chainIds, origin, matches, service);
    }
  }
}
