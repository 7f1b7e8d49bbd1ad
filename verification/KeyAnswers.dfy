/** Which answer each access-key operation gives, for every store and every number of working calls. */
module KeyAnswers {
  import opened Options
  import opened AccessKeys
  import opened KeyLifecycle

  predicate Stored(w: World, key: string, p: nat) {
    key in w.store && w.store[key].projectId == p
  }

  ghost predicate HasActive(w: World, p: nat) {
    exists k :: k in w.store && w.store[k].projectId == p && w.store[k].active
  }

  ghost predicate HasDefault(w: World, p: nat) {
    exists k :: k in w.store && w.store[k].projectId == p && w.store[k].active && w.store[k].default
  }

  lemma DefaultsAreThere(w: World, p: nat)
    ensures Actives(w, p) != {} <==> HasActive(w, p)
    ensures ActiveDefaults(w, p) != {} <==> HasDefault(w, p)
  {
    if HasActive(w, p) {
      var k :| k in w.store && w.store[k].projectId == p && w.store[k].active;
      assert k in Actives(w, p);
    }
    if HasDefault(w, p) {
      var k :| k in w.store && w.store[k].projectId == p && w.store[k].active && w.store[k].default;
      assert k in ActiveDefaults(w, p);
    }
  }

  /** Create: the new key has what was asked for, is active, and is the default exactly if the project
      has no active key; it is stored, and nothing else changes. */
  lemma CreateAnswers(w: World, op: Op)
    requires op.Create?
    ensures var r := Run(w, op).result;
      && (r == Err(StoreFailure) <==> op.calls == 0 || (op.calls == 1 && op.validOrigins))
      && (r == Err(InvalidOrigins) <==> op.calls > 0 && !op.validOrigins)
      && (r.Ok? <==> op.calls > 1 && op.validOrigins)
      && (r.Err? ==> Run(w, op).world == w)
      && (r.Ok? ==>
            && r.key == KeyRecord(op.projectId, op.displayName, op.newKey, true, !HasActive(w, op.projectId),
                                  op.requireOrigin, op.origins, op.services)
            && Run(w, op).world == World(w.store[op.newKey := r.key], w.cache))
  {
    DefaultsAreThere(w, op.projectId);
  }

  /** Rotate. */
  lemma RotateAnswers(w: World, op: Op)
    requires op.Rotate?
    ensures var r := Run(w, op).result;
      && (op.calls == 0 ==> r == Err(StoreFailure) && Run(w, op).world == w)
      && (op.calls > 0 && op.key !in w.store ==> r == Err(NotFound) && Run(w, op).world == w)
      && (op.calls > 0 && op.key in w.store ==>
            && (r.Ok? <==> op.validOrigins && (op.calls >= 5 || (op.calls == 4 && !w.store[op.key].default)))
            && (r == Err(InvalidOrigins) <==> op.calls >= 3 && !op.validOrigins)
            && (r.Err? ==> r == Err(InvalidOrigins) || r == Err(StoreFailure)))
  {
  }

  /** Update. */
  lemma UpdateAnswers(w: World, op: Op)
    requires op.Update?
    ensures var r, refused := Run(w, op).result, op.edits.allowedOrigins.Some? && !op.validOrigins;
      && (r == Err(NotFound) <==> op.calls > 0 && op.key !in w.store)
      && (r == Err(InvalidOrigins) <==> op.calls > 0 && op.key in w.store && refused)
      && (r.Ok? <==> op.calls > 1 && op.key in w.store && !refused)
      && (r.Err? ==> r.error in {NotFound, InvalidOrigins, StoreFailure} && Run(w, op).world == w)
  {
  }

  /** SetDefault: it succeeds only for a stored key of the project it is called for, and only if that
      project has an active default; a key of another project is refused, and nothing changes. */
  lemma SetDefaultAnswers(w: World, op: Op)
    requires op.SetDefault? && Keyed(w) && Picks(w, op)
    ensures var r := Run(w, op).result;
      && (r == Err(NotFound) <==> op.calls > 0 && op.key !in w.store)
      && (r == Err(PermissionDenied) <==> op.calls > 0 && op.key in w.store && w.store[op.key].projectId != op.projectId)
      && (r == Err(NoDefaultKey) <==> op.calls > 1 && Stored(w, op.key, op.projectId) && !HasDefault(w, op.projectId))
      && (r.Ok? <==> Stored(w, op.key, op.projectId) && HasDefault(w, op.projectId)
                     && (op.calls >= 4 || (op.calls >= 2 && op.pick == op.key)))
      && (r.Ok? ==> r.key == w.store[op.key].(default := true))
      && (r.Err? ==> r.error in {NotFound, PermissionDenied, NoDefaultKey, StoreFailure})
      && (r.Err? && r.error != StoreFailure ==> Run(w, op).world == w)
  {
    DefaultsAreThere(w, op.projectId);
  }

  /** Disable: the only active key of a project is refused, and nothing changes. */
  lemma DisableRefuses(w: World, op: Op)
    requires op.Disable?
    ensures var r := Run(w, op).result;
      && (r == Err(NotFound) <==> op.calls > 0 && op.key !in w.store)
      && (r == Err(AtLeastOneKey) <==>
            op.calls > 1 && op.key in w.store && |Actives(w, w.store[op.key].projectId)| == 1)
      && (op.calls <= 2 ==> r.Err?)
      && (r.Err? && (op.calls <= 2 || r.error in {NotFound, AtLeastOneKey}) ==> Run(w, op).world == w)
  {
  }

  /** Otherwise it succeeds if its look-up of the default fails, if an active default is left, or if
      all its calls work; it panics if there is no active key. */
  lemma DisableAnswers(w: World, op: Op)
    requires op.Disable? && Keyed(w) && Picks(w, op) && op.calls >= 3
    requires op.key in w.store && |Actives(w, w.store[op.key].projectId)| != 1
    ensures var r, p := Run(w, op).result, w.store[op.key].projectId;
      && (r == Err(Panic) <==> op.calls >= 5 && !HasActive(w, p))
      && (r.Ok? <==>
            || op.calls == 3
            || ActiveDefaults(w, p) - {op.key} != {}
            || (op.calls >= 6 && HasActive(w, p)))
      && (r.Ok? ==> r.key == w.store[op.key].(active := false, default := false))
      && (r.Err? ==> r.error in {Panic, StoreFailure})
  {
    var off, k := SwitchedOff(w, op.key, op.deletes), w.store[op.key].(active := false, default := false);
    SwitchedOffKeys(w, op.key, op.deletes);
    DefaultsAreThere(w, k.projectId);
    DisablePanicsExactlyWhen(w, op);
    DisableHandsOver(w, op);
    PickIsLeft(w, op);
    HandOverAnswers(off, op.calls - 3, op.deletes, k, op.pick);
  }

  lemma HandOverAnswers(w: World, calls: nat, deletes: bool, k: KeyRecord, pick: string)
    ensures var r := HandOverOut(w, calls, deletes, k, pick).result;
      && (r.Ok? <==> calls == 0 || ActiveDefaults(w, k.projectId) != {}
                     || (calls >= 3 && pick in Actives(w, k.projectId)))
      && (r.Ok? ==> r.key == k)
      && (r.Err? ==> r.error in {Panic, StoreFailure})
  {
  }

  /** Fetch: a cached record is served as it is, a missing one from the store, and then cached. */
  lemma FetchAnswers(w: World, op: Op)
    requires op.Fetch?
    ensures var out := Run(w, op);
      && (op.key in w.cache ==> out.result == Ok(w.cache[op.key]) && out.world == w)
      && (op.key !in w.cache && op.key !in w.store ==> out.result == Err(NotFound) && out.world == w)
      && (op.key !in w.cache && op.key in w.store ==>
            && out.result == Ok(w.store[op.key])
            && out.world == World(w.store, if op.caches then w.cache[op.key := w.store[op.key]] else w.cache))
  {
  }
}
