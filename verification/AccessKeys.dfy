/** The access-key lifecycle as functions on the key store and the quota cache, with the store
    failing at any call. */
module AccessKeys {
  import opened Options

  datatype KeyRecord = KeyRecord(
    projectId: nat,
    displayName: string,
    accessKey: string,
    active: bool,
    default: bool,
    requireOrigin: bool,
    allowedOrigins: seq<string>,
    allowedServices: seq<nat>)

  /** What an update changes: the fields it is given. */
  datatype Edits = Edits(
    displayName: Option<string>,
    requireOrigin: Option<bool>,
    allowedOrigins: Option<seq<string>>,
    allowedServices: Option<seq<nat>>)

  datatype Error = StoreFailure | NotFound | PermissionDenied | NoDefaultKey | AtLeastOneKey | InvalidOrigins | Panic

  datatype Result = Ok(key: KeyRecord) | Err(error: Error)

  /** The key store, and for each cached access-key quota the key record it carries. */
  datatype World = World(store: map<string, KeyRecord>, cache: map<string, KeyRecord>)

  /** How an operation ends, and how many more store calls would have succeeded. */
  datatype Out = Out(world: World, calls: nat, result: Result)

  function Actives(w: World, p: nat): set<string> {
    set k | k in w.store && w.store[k].projectId == p && w.store[k].active
  }

  function ActiveDefaults(w: World, p: nat): set<string> {
    set k | k in w.store && w.store[k].projectId == p && w.store[k].active && w.store[k].default
  }

  /** Store write, then cache invalidation; a failed invalidation is only logged. */
  function Written(w: World, k: KeyRecord, deletes: bool): World {
    World(w.store[k.accessKey := k], if deletes then w.cache - {k.accessKey} else w.cache)
  }

  function Write(w: World, calls: nat, k: KeyRecord, deletes: bool): Out {
    if calls == 0 then Out(w, 0, Err(StoreFailure)) else Out(Written(w, k, deletes), calls - 1, Ok(k))
  }

  /** An operation: `calls` is how many of its store calls succeed, `deletes` whether its cache
      invalidations do, `pick` the first key of the list it looks into, `newKey` the generated key. */
  datatype Op =
    | Create(calls: nat, projectId: nat, displayName: string, requireOrigin: bool, origins: seq<string>,
             services: seq<nat>, validOrigins: bool, newKey: string)
    | Rotate(calls: nat, deletes: bool, key: string, validOrigins: bool, newKey: string)
    | Update(calls: nat, deletes: bool, key: string, edits: Edits, validOrigins: bool)
    | SetDefault(calls: nat, deletes: bool, projectId: nat, key: string, pick: string)
    | Disable(calls: nat, deletes: bool, key: string, pick: string)
    | Fetch(key: string, caches: bool)

  function CreateOut(w: World, calls: nat, p: nat, displayName: string, requireOrigin: bool, origins: seq<string>,
                     services: seq<nat>, validOrigins: bool, newKey: string): Out
  {
    if calls == 0 then Out(w, 0, Err(StoreFailure))
    else if !validOrigins then Out(w, calls - 1, Err(InvalidOrigins))
    else if calls == 1 then Out(w, 0, Err(StoreFailure))
    else
      var k := KeyRecord(p, displayName, newKey, true, Actives(w, p) == {}, requireOrigin, origins, services);
      Out(w.(store := w.store[newKey := k]), calls - 2, Ok(k))
  }

  function RotateOut(w: World, calls: nat, deletes: bool, key: string, validOrigins: bool, newKey: string): Out {
    if calls == 0 then Out(w, 0, Err(StoreFailure))
    else if key !in w.store then Out(w, calls - 1, Err(NotFound))
    else
      var existing := w.store[key];
      var off := Write(w, calls - 1, existing.(active := false, default := false), deletes);
      if off.result.Err? then off
      else
        var made := CreateOut(off.world, off.calls, existing.projectId, existing.displayName,
                              existing.requireOrigin, existing.allowedOrigins, existing.allowedServices,
                              validOrigins, newKey);
        if made.result.Err? || !existing.default then made
        else Write(made.world, made.calls, made.result.key.(default := true), deletes)
  }

  function Edited(k: KeyRecord, e: Edits): KeyRecord {
    k.(displayName := e.displayName.Or(k.displayName), requireOrigin := e.requireOrigin.Or(k.requireOrigin),
       allowedOrigins := e.allowedOrigins.Or(k.allowedOrigins), allowedServices := e.allowedServices.Or(k.allowedServices))
  }

  function UpdateOut(w: World, calls: nat, deletes: bool, key: string, edits: Edits, validOrigins: bool): Out {
    if calls == 0 then Out(w, 0, Err(StoreFailure))
    else if key !in w.store then Out(w, calls - 1, Err(NotFound))
    else if edits.allowedOrigins.Some? && !validOrigins then Out(w, calls - 1, Err(InvalidOrigins))
    else Write(w, calls - 1, Edited(w.store[key], edits), deletes)
  }

  function SetDefaultOut(w: World, calls: nat, deletes: bool, p: nat, key: string, pick: string): Out {
    if calls == 0 then Out(w, 0, Err(StoreFailure))
    else if key !in w.store then Out(w, calls - 1, Err(NotFound))
    else if w.store[key].projectId != p then Out(w, calls - 1, Err(PermissionDenied))
    else if calls == 1 then Out(w, 0, Err(StoreFailure))
    else if pick !in ActiveDefaults(w, p) then Out(w, calls - 2, Err(NoDefaultKey))
    else if w.store[pick].accessKey == w.store[key].accessKey then Out(w, calls - 2, Ok(w.store[key]))
    else
      var off := Write(w, calls - 2, w.store[pick].(default := false), deletes);
      if off.result.Err? then off
      else Write(off.world, off.calls, w.store[key].(default := true), deletes)
  }

  function DisableOut(w: World, calls: nat, deletes: bool, key: string, pick: string): Out {
    if calls == 0 then Out(w, 0, Err(StoreFailure))
    else if key !in w.store then Out(w, calls - 1, Err(NotFound))
    else if calls == 1 then Out(w, 0, Err(StoreFailure))
    else
      var k := w.store[key].(active := false, default := false);
      if |Actives(w, k.projectId)| == 1 then Out(w, calls - 2, Err(AtLeastOneKey))
      else SwitchOffOut(w, calls - 2, deletes, k, pick)
  }

  function SwitchOffOut(w: World, calls: nat, deletes: bool, k: KeyRecord, pick: string): Out {
    var off := Write(w, calls, k, deletes);
    if off.result.Err? then off else HandOverOut(off.world, off.calls, deletes, k, pick)
  }

  /** Disable's last part: make another active key the default if no active default is left. */
  function HandOverOut(w: World, calls: nat, deletes: bool, k: KeyRecord, pick: string): Out {
    // A failing look-up of the default key is taken for "there is one".
    if calls == 0 then Out(w, 0, Ok(k))
    else if ActiveDefaults(w, k.projectId) != {} then Out(w, calls - 1, Ok(k))
    else if calls == 1 then Out(w, 0, Err(StoreFailure))
    // listUpdated[0] of an empty list.
    else if pick !in Actives(w, k.projectId) then Out(w, calls - 2, Err(Panic))
    else
      var on := Write(w, calls - 2, w.store[pick].(default := true), deletes);
      if on.result.Err? then on else on.(result := Ok(k))
  }

  /** FetchKeyQuota's cache fill: a hit is served as it is, a miss goes to the store. */
  function FetchOut(w: World, key: string, caches: bool): Out {
    if key in w.cache then Out(w, 0, Ok(w.cache[key]))
    else if key !in w.store then Out(w, 0, Err(NotFound))
    else Out(if caches then w.(cache := w.cache[key := w.store[key]]) else w, 0, Ok(w.store[key]))
  }

  function Run(w: World, op: Op): Out {
    match op
    case Create(calls, p, name, requireOrigin, origins, services, valid, newKey) =>
      CreateOut(w, calls, p, name, requireOrigin, origins, services, valid, newKey)
    case Rotate(calls, deletes, key, valid, newKey) => RotateOut(w, calls, deletes, key, valid, newKey)
    case Update(calls, deletes, key, edits, valid) => UpdateOut(w, calls, deletes, key, edits, valid)
    case SetDefault(calls, deletes, p, key, pick) => SetDefaultOut(w, calls, deletes, p, key, pick)
    case Disable(calls, deletes, key, pick) => DisableOut(w, calls, deletes, key, pick)
    case Fetch(key, caches) => FetchOut(w, key, caches)
  }

  function After(w: World, ops: seq<Op>): World
    decreases |ops|
  {
    if ops == [] then w else After(Run(w, ops[0]).world, ops[1..])
  }

  /** `pick` is what the first matching element of a listing can be. */
  predicate Picks(w: World, op: Op) {
    match op
    case SetDefault(_, _, p, _, pick) => ActiveDefaults(w, p) != {} ==> pick in ActiveDefaults(w, p)
    case Disable(_, _, key, pick) =>
      key in w.store ==>
        var rest := Actives(w, w.store[key].projectId) - {key};
        rest != {} ==> pick in rest
    case _ => true
  }

  predicate FreshKey(w: World, op: Op) {
    (op.Create? || op.Rotate?) ==> op.newKey !in w.store && op.newKey !in w.cache
  }

  /** SetDefault is called on an active key, if on a key of the project at all. */
  predicate TargetsActive(w: World, op: Op) {
    op.SetDefault? && op.key in w.store && w.store[op.key].projectId == op.projectId ==> w.store[op.key].active
  }

  predicate Allowed(w: World, op: Op) {
    Picks(w, op) && FreshKey(w, op) && TargetsActive(w, op)
  }

  /** Enough store calls succeed for the operation to finish, and stored origins still validate. */
  predicate Completes(op: Op) {
    match op
    case Create(calls, _, _, _, _, _, _, _) => calls >= 2
    case Rotate(calls, _, _, valid, _) => calls >= 5 && valid
    case Update(calls, _, _, _, _) => calls >= 2
    case SetDefault(calls, _, _, _, _) => calls >= 4
    case Disable(calls, _, _, _) => calls >= 6
    case Fetch(_, _) => true
  }

  ghost predicate AllAllowed(w: World, ops: seq<Op>)
    decreases |ops|
  {
    ops != [] ==> Allowed(w, ops[0]) && AllAllowed(Run(w, ops[0]).world, ops[1..])
  }

  ghost predicate Keyed(w: World) {
    forall k :: k in w.store ==> w.store[k].accessKey == k
  }

  /** At most one default key per project, and only an active key is a default. */
  ghost predicate Sane(w: World) {
    && Keyed(w)
    && (forall k :: k in w.store && w.store[k].default ==> w.store[k].active)
    && (forall k, j :: k in w.store && j in w.store && w.store[k].projectId == w.store[j].projectId ==>
          w.store[k].default && w.store[j].default ==> k == j)
  }

  /** Every project that has a key has a default key. */
  ghost predicate Served(w: World) {
    forall k :: k in w.store ==> ActiveDefaults(w, w.store[k].projectId) != {}
  }

  /** A cached quota carries the key record of the store. */
  ghost predicate Coherent(w: World) {
    forall k :: k in w.cache ==> k in w.store && w.cache[k] == w.store[k]
  }
}
