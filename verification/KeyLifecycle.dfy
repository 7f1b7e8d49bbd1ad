/** What the access-key operations keep, over every sequence of them. */
module KeyLifecycle {
  import opened Options
  import opened AccessKeys

  /** A write that neither makes a second default nor an inactive one. */
  lemma WriteKeepsSane(w: World, k: KeyRecord, deletes: bool)
    requires Sane(w)
    requires k.default ==> k.active
    requires k.default ==> forall j :: j in w.store && w.store[j].projectId == k.projectId && w.store[j].default ==> j == k.accessKey
    ensures Sane(Written(w, k, deletes))
  {
  }

  lemma OneActiveDefault(w: World, p: nat, d: string)
    requires Sane(w) && d in ActiveDefaults(w, p)
    ensures ActiveDefaults(w, p) == {d}
    ensures forall j :: j in w.store && w.store[j].projectId == p && w.store[j].default ==> j == d
  {
  }

  /** Failure-tolerant uniqueness, one operation: whichever store call fails, and whatever the
      cache does, no project gets two default keys and no inactive key is the default. */
  lemma RunKeepsSane(w: World, op: Op)
    requires Sane(w) && Allowed(w, op)
    ensures Sane(Run(w, op).world)
  {
    match op
    case Create(calls, p, name, requireOrigin, origins, services, valid, newKey) =>
      CreateKeepsSane(w, calls, p, name, requireOrigin, origins, services, valid, newKey);
    case Rotate(_, _, key, _, newKey) => RotateKeepsSane(w, op);
    case Update(_, _, key, _, _) =>
    case SetDefault(_, _, p, key, pick) => SetDefaultKeepsSane(w, op);
    case Disable(_, _, key, pick) => DisableKeepsSane(w, op);
    case Fetch(_, _) =>
  }

  /** The new key is the default only when the project has no active key, so no default either. */
  lemma CreateKeepsSane(w: World, calls: nat, p: nat, name: string, requireOrigin: bool, origins: seq<string>,
                        services: seq<nat>, valid: bool, newKey: string)
    requires Sane(w) && newKey !in w.store
    ensures Sane(CreateOut(w, calls, p, name, requireOrigin, origins, services, valid, newKey).world)
  {
    assert forall j :: j in w.store && w.store[j].projectId == p && w.store[j].default ==> j in Actives(w, p);
  }

  lemma RotateKeepsSane(w: World, op: Op)
    requires op.Rotate? && Sane(w) && FreshKey(w, op)
    ensures Sane(Run(w, op).world)
  {
    if op.calls >= 2 && op.key in w.store {
      var existing := w.store[op.key];
      var off := Written(w, existing.(active := false, default := false), op.deletes);
      assert Sane(off) && op.newKey !in off.store;
      if op.validOrigins && op.calls >= 4 {
        var made := CreateOut(off, op.calls - 2, existing.projectId, existing.displayName, existing.requireOrigin,
                              existing.allowedOrigins, existing.allowedServices, true, op.newKey);
        CreateKeepsSane(off, op.calls - 2, existing.projectId, existing.displayName, existing.requireOrigin,
                        existing.allowedOrigins, existing.allowedServices, true, op.newKey);
        if existing.default && op.calls >= 5 {
          WriteKeepsSane(made.world, made.result.key.(default := true), op.deletes);
        }
      }
    }
  }

  lemma SetDefaultKeepsSane(w: World, op: Op)
    requires op.SetDefault? && Sane(w) && Allowed(w, op)
    ensures Sane(Run(w, op).world)
  {
    if op.key in w.store && op.pick in ActiveDefaults(w, op.projectId) {
      OneActiveDefault(w, op.projectId, op.pick);
      var off := Written(w, w.store[op.pick].(default := false), op.deletes);
      WriteKeepsSane(w, w.store[op.pick].(default := false), op.deletes);
      if w.store[op.key].projectId == op.projectId && op.key != op.pick {
        WriteKeepsSane(off, w.store[op.key].(default := true), op.deletes);
      }
    }
  }

  lemma DisableKeepsSane(w: World, op: Op)
    requires op.Disable? && Sane(w)
    ensures Sane(Run(w, op).world)
  {
    if op.key in w.store {
      var k := w.store[op.key].(active := false, default := false);
      var off := Written(w, k, op.deletes);
      WriteKeepsSane(w, k, op.deletes);
      if op.pick in Actives(off, k.projectId) && ActiveDefaults(off, k.projectId) == {} {
        assert forall j :: j in off.store && off.store[j].projectId == k.projectId && off.store[j].default ==>
          j in ActiveDefaults(off, k.projectId);
        WriteKeepsSane(off, off.store[op.pick].(default := true), op.deletes);
      }
    }
  }

  /** Failure-tolerant default uniqueness over every sequence of operations, with store failures
      anywhere in any of them. */
  lemma {:induction false} DefaultsStayUnique(w: World, ops: seq<Op>)
    requires Sane(w) && AllAllowed(w, ops)
    ensures Sane(After(w, ops))
    decreases |ops|
  {
    if ops != [] {
      RunKeepsSane(w, ops[0]);
      DefaultsStayUnique(Run(w, ops[0]).world, ops[1..]);
    }
  }

  lemma DefaultIsThere(w: World, d: string)
    requires d in w.store && w.store[d].active && w.store[d].default
    ensures ActiveDefaults(w, w.store[d].projectId) != {}
  {
    assert d in ActiveDefaults(w, w.store[d].projectId);
  }

  /** If a project's default key is d, nothing else of the projects' keys and defaults matters. */
  lemma ServedBy(w: World, w': World, p: nat, d: string)
    requires Served(w) && d in w'.store && w'.store[d].projectId == p && w'.store[d].active && w'.store[d].default
    requires forall k :: k in w'.store && w'.store[k].projectId != p ==> k in w.store && w'.store[k] == w.store[k]
    requires forall k :: k in w.store && w.store[k].projectId != p ==> k in w'.store && w'.store[k] == w.store[k]
    ensures Served(w')
  {
    forall k | k in w'.store ensures ActiveDefaults(w', w'.store[k].projectId) != {} {
      if w'.store[k].projectId == p {
        DefaultIsThere(w', d);
      } else {
        var e :| e in ActiveDefaults(w, w.store[k].projectId);
        DefaultIsThere(w', e);
      }
    }
  }

  lemma CreateKeepsServed(w: World, op: Op)
    requires op.Create? && Sane(w) && Served(w) && FreshKey(w, op)
    ensures Served(Run(w, op).world)
  {
    if op.validOrigins && op.calls >= 2 {
      var w' := Run(w, op).world;
      if Actives(w, op.projectId) == {} {
        ServedBy(w, w', op.projectId, op.newKey);
      } else {
        var a :| a in Actives(w, op.projectId);
        var d :| d in ActiveDefaults(w, w.store[a].projectId);
        ServedBy(w, w', op.projectId, d);
      }
    }
  }

  lemma UpdateKeepsServed(w: World, op: Op)
    requires op.Update? && Sane(w) && Served(w)
    ensures Served(Run(w, op).world)
  {
    if op.key in w.store {
      var d :| d in ActiveDefaults(w, w.store[op.key].projectId);
      ServedBy(w, Run(w, op).world, w.store[op.key].projectId, d);
    }
  }

  lemma MoreThanOne(s: set<string>, k: string, d: string)
    requires d in s && |s| != 1
    ensures s - {k} != {}
  {
    assert |s| >= 1;
    if k in s {
      assert s == (s - {k}) + {k};
      assert |s| == |s - {k}| + 1;
    } else {
      assert s - {k} == s;
    }
  }

  /** The world after Disable's first write. */
  function SwitchedOff(w: World, key: string, deletes: bool): World
    requires key in w.store
  {
    Written(w, w.store[key].(active := false, default := false), deletes)
  }

  lemma SwitchedOffKeys(w: World, key: string, deletes: bool)
    requires Keyed(w) && key in w.store
    ensures var off, p := SwitchedOff(w, key, deletes), w.store[key].projectId;
      && Actives(off, p) == Actives(w, p) - {key}
      && ActiveDefaults(off, p) == ActiveDefaults(w, p) - {key}
      && ActiveDefaults(off, p) <= Actives(off, p)
      && (forall k :: k in w.store && k != key ==> k in off.store && off.store[k] == w.store[k])
      && (forall k :: k in off.store ==> k in w.store)
  {
  }

  /** How a Disable with enough working store calls ends. */
  lemma DisableEnds(w: World, op: Op)
    requires op.Disable? && Keyed(w) && Completes(op) && op.key in w.store
    ensures var off, p := SwitchedOff(w, op.key, op.deletes), w.store[op.key].projectId;
      if |Actives(w, p)| == 1 then Run(w, op) == Out(w, op.calls - 2, Err(AtLeastOneKey))
      else if ActiveDefaults(off, p) != {} then Run(w, op).world == off && Run(w, op).result.Ok?
      else if op.pick !in Actives(off, p) then Run(w, op).world == off && Run(w, op).result == Err(Panic)
      else Run(w, op).world == Written(off, off.store[op.pick].(default := true), op.deletes) && Run(w, op).result.Ok?
  {
  }

  lemma DisableKeepsServed(w: World, op: Op)
    requires op.Disable? && Sane(w) && Served(w) && Completes(op) && Picks(w, op)
    ensures Served(Run(w, op).world) && Run(w, op).result != Err(Panic)
  {
    if op.key in w.store {
      DisableEnds(w, op);
      SwitchedOffKeys(w, op.key, op.deletes);
      if |Actives(w, w.store[op.key].projectId)| != 1 {
        HandOverServes(w, op.key, op.deletes, op.pick);
      }
    }
  }

  /** Once the key is switched off, an active default is left or the picked key becomes it. */
  lemma HandOverServes(w: World, key: string, deletes: bool, pick: string)
    requires Sane(w) && Served(w) && key in w.store && |Actives(w, w.store[key].projectId)| != 1
    requires var rest := Actives(w, w.store[key].projectId) - {key}; rest != {} ==> pick in rest
    ensures var off, p := SwitchedOff(w, key, deletes), w.store[key].projectId;
      if ActiveDefaults(off, p) != {} then Served(off)
      else pick in Actives(off, p) && Served(Written(off, off.store[pick].(default := true), deletes))
  {
    var p := w.store[key].projectId;
    var d :| d in ActiveDefaults(w, p);
    MoreThanOne(Actives(w, p), key, d);
    SwitchedOffKeys(w, key, deletes);
    if ActiveDefaults(w, p) - {key} != {} {
      var e :| e in ActiveDefaults(w, p) - {key};
      ServedWithout(w, key, deletes, e);
    } else {
      ServedByPick(w, key, deletes, pick);
    }
  }

  lemma ServedWithout(w: World, key: string, deletes: bool, d: string)
    requires Keyed(w) && Served(w) && key in w.store && d in ActiveDefaults(w, w.store[key].projectId) - {key}
    ensures Served(SwitchedOff(w, key, deletes))
  {
    ServedBy(w, SwitchedOff(w, key, deletes), w.store[key].projectId, d);
  }

  lemma ServedByPick(w: World, key: string, deletes: bool, pick: string)
    requires Keyed(w) && Served(w) && key in w.store && pick in Actives(w, w.store[key].projectId) - {key}
    ensures var off := SwitchedOff(w, key, deletes);
      pick in off.store && Served(Written(off, off.store[pick].(default := true), deletes))
  {
    var off := SwitchedOff(w, key, deletes);
    ServedBy(w, Written(off, off.store[pick].(default := true), deletes), w.store[key].projectId, pick);
  }

  /** Which interrupted operations leave the project of their key without a default. A rotation of
      the default key: after it is switched off and before the new key is the default, which the new
      key is at once if no other is active. SetDefault: between its two writes. Disable of the
      default key: when the look-up, the second listing or the last write fails. */
  predicate Loses(w: World, op: Op) {
    match op
    case Rotate(calls, _, key, valid, _) =>
      key in w.store && w.store[key].default && calls >= 2
      && !(valid && (calls >= 5 || (calls == 4 && Actives(w, w.store[key].projectId) == {key})))
    case SetDefault(calls, _, p, key, _) =>
      key in w.store && w.store[key].projectId == p && !w.store[key].default && calls == 3
    case Disable(calls, _, key, _) =>
      key in w.store && w.store[key].default && 3 <= calls <= 5 && |Actives(w, w.store[key].projectId)| > 1
    case _ => false
  }

  lemma NoDefaultLeft(w: World, w': World, key: string)
    requires key in w'.store && ActiveDefaults(w', w'.store[key].projectId) == {}
    ensures !Served(w')
  {
  }

  /** The store after a key was switched off and, perhaps, a new one was made. */
  ghost predicate Replaced(w: World, w': World, key: string, newKey: string, made: Option<KeyRecord>)
    requires key in w.store
  {
    && w'.store.Keys == w.store.Keys + (if made.Some? then {newKey} else {})
    && w'.store[key] == w.store[key].(active := false, default := false)
    && (made.Some? ==> w'.store[newKey] == made.value && made.value.projectId == w.store[key].projectId)
    && (forall k :: k in w.store && k != key ==> w'.store[k] == w.store[k])
  }

  lemma ReplacedOther(w: World, w': World, key: string, newKey: string, made: Option<KeyRecord>, d: string)
    requires Keyed(w) && Served(w) && key in w.store && newKey !in w.store && Replaced(w, w', key, newKey, made)
    requires d != key && d in ActiveDefaults(w, w.store[key].projectId)
    ensures Served(w')
  {
    ServedBy(w, w', w.store[key].projectId, d);
  }

  lemma ReplacedDefault(w: World, w': World, key: string, newKey: string, made: Option<KeyRecord>)
    requires Keyed(w) && Served(w) && key in w.store && newKey !in w.store && Replaced(w, w', key, newKey, made)
    requires made.Some? && made.value.active && made.value.default
    ensures Served(w')
  {
    ServedBy(w, w', w.store[key].projectId, newKey);
  }

  lemma ReplacedNothing(w: World, w': World, key: string, newKey: string, made: Option<KeyRecord>)
    requires Sane(w) && key in w.store && newKey !in w.store && Replaced(w, w', key, newKey, made)
    requires w.store[key].default && (made.Some? ==> !made.value.default)
    ensures !Served(w')
  {
    OneActiveDefault(w, w.store[key].projectId, key);
    assert ActiveDefaults(w', w.store[key].projectId) == {};
    NoDefaultLeft(w, w', key);
  }

  /** The key a rotation with these store calls makes, if it comes that far. */
  function Made(w: World, op: Op): Option<KeyRecord>
    requires op.Rotate? && op.key in w.store
  {
    var x := w.store[op.key];
    var default := Actives(w, x.projectId) - {op.key} == {} || (x.default && op.calls >= 5);
    if op.validOrigins && op.calls >= 4 then Some(x.(accessKey := op.newKey, active := true, default := default)) else None
  }

  lemma RotateEnds(w: World, op: Op)
    requires op.Rotate? && Keyed(w) && FreshKey(w, op) && op.key in w.store && op.calls >= 2
    ensures Replaced(w, Run(w, op).world, op.key, op.newKey, Made(w, op))
  {
    SwitchedOffKeys(w, op.key, op.deletes);
  }

  lemma RotateServesExactlyWhen(w: World, op: Op)
    requires op.Rotate? && Sane(w) && Served(w) && FreshKey(w, op)
    ensures Served(Run(w, op).world) <==> !Loses(w, op)
  {
    if op.key in w.store && op.calls >= 2 {
      RotateEnds(w, op);
      RotatedServes(w, Run(w, op).world, op);
    } else {
      assert Run(w, op).world.store == w.store;
    }
  }

  lemma RotatedServes(w: World, w': World, op: Op)
    requires op.Rotate? && Sane(w) && Served(w) && FreshKey(w, op) && op.key in w.store && op.calls >= 2
    requires Replaced(w, w', op.key, op.newKey, Made(w, op))
    ensures Served(w') <==> !Loses(w, op)
  {
    var p := w.store[op.key].projectId;
    var d :| d in ActiveDefaults(w, p);
    OneActiveDefault(w, p, d);
    assert d in Actives(w, p);
    if d != op.key {
      ReplacedOther(w, w', op.key, op.newKey, Made(w, op), d);
    } else if Made(w, op).Some? && Made(w, op).value.default {
      ReplacedDefault(w, w', op.key, op.newKey, Made(w, op));
    } else {
      ReplacedNothing(w, w', op.key, op.newKey, Made(w, op));
    }
  }

  lemma SetDefaultServesExactlyWhen(w: World, op: Op)
    requires op.SetDefault? && Sane(w) && Served(w) && Allowed(w, op)
    ensures Served(Run(w, op).world) <==> !Loses(w, op)
  {
    var w' := Run(w, op).world;
    if op.key in w.store && w.store[op.key].projectId == op.projectId {
      OneActiveDefault(w, op.projectId, op.pick);
      if w.store[op.key].default || op.calls <= 2 {
        assert w'.store == w.store;
      } else if op.calls == 3 {
        assert ActiveDefaults(w', op.projectId) == {};
        NoDefaultLeft(w', w', op.key);
      } else {
        ServedBy(w, w', op.projectId, op.key);
      }
    }
  }

  /** How a Disable of a default key that is not the only active one ends: switched off, and no
      other key made the default unless six store calls succeed. */
  lemma DisableDefaultEnds(w: World, op: Op)
    requires op.Disable? && Sane(w) && Served(w) && Picks(w, op) && op.calls < 6
    requires op.key in w.store && w.store[op.key].default && |Actives(w, w.store[op.key].projectId)| > 1
    ensures Run(w, op).world == if op.calls <= 2 then w else SwitchedOff(w, op.key, op.deletes)
    ensures ActiveDefaults(SwitchedOff(w, op.key, op.deletes), w.store[op.key].projectId) == {}
    ensures Run(w, op).result.Ok? <==> op.calls == 3
  {
    OneActiveDefault(w, w.store[op.key].projectId, op.key);
    SwitchedOffKeys(w, op.key, op.deletes);
    MoreThanOne(Actives(w, w.store[op.key].projectId), op.key, op.key);
  }

  /** A Disable of another key leaves the default key where it is. */
  lemma DisableOtherEnds(w: World, op: Op, d: string)
    requires op.Disable? && Keyed(w) && op.key in w.store && !w.store[op.key].default
    requires d in ActiveDefaults(w, w.store[op.key].projectId)
    ensures var off := SwitchedOff(w, op.key, op.deletes);
      && d in ActiveDefaults(off, w.store[op.key].projectId)
      && (Run(w, op).world.store == w.store || Run(w, op).world == off)
  {
    SwitchedOffKeys(w, op.key, op.deletes);
  }

  lemma DisableServesExactlyWhen(w: World, op: Op)
    requires op.Disable? && Sane(w) && Served(w) && Picks(w, op)
    ensures Served(Run(w, op).world) <==> !Loses(w, op)
  {
    if op.calls >= 6 {
      DisableKeepsServed(w, op);
    } else if op.key in w.store {
      var p := w.store[op.key].projectId;
      var d :| d in ActiveDefaults(w, p);
      OneActiveDefault(w, p, d);
      assert d in Actives(w, p);
      if |Actives(w, p)| == 1 {
        assert Run(w, op).world == w;
      } else if w.store[op.key].default {
        DisableDefaultEnds(w, op);
        if op.calls >= 3 {
          NoDefaultLeft(w, Run(w, op).world, op.key);
        }
      } else {
        DisableOtherEnds(w, op, d);
        if Run(w, op).world.store != w.store {
          ServedBy(w, Run(w, op).world, p, d);
        }
      }
    }
  }

  /** Whichever store call fails in whichever operation, the projects all keep a default key exactly
      when the operation is none of those. */
  lemma ServedExactlyWhen(w: World, op: Op)
    requires Sane(w) && Served(w) && Allowed(w, op)
    ensures Served(Run(w, op).world) <==> !Loses(w, op)
  {
    match op
    case Create(_, _, _, _, _, _, _, _) => CreateKeepsServed(w, op);
    case Rotate(_, _, _, _, _) => RotateServesExactlyWhen(w, op);
    case Update(_, _, _, _, _) => UpdateKeepsServed(w, op);
    case SetDefault(_, _, _, _, _) => SetDefaultServesExactlyWhen(w, op);
    case Disable(_, _, _, _) => DisableServesExactlyWhen(w, op);
    case Fetch(_, _) => assert Run(w, op).world.store == w.store;
  }

  /** One operation that completes keeps the projects served. */
  lemma RunKeepsServed(w: World, op: Op)
    requires Sane(w) && Served(w) && Completes(op) && Allowed(w, op)
    ensures Served(Run(w, op).world)
    ensures Run(w, op).result != Err(Panic)
  {
    ServedExactlyWhen(w, op);
    ServedNeverPanics(w, op);
  }

  /** A Disable that does not fail early hands over from the world with its key switched off. */
  lemma DisableHandsOver(w: World, op: Op)
    requires op.Disable? && op.key in w.store
    ensures var k := w.store[op.key].(active := false, default := false);
      if op.calls >= 3 && |Actives(w, k.projectId)| != 1
      then Run(w, op) == HandOverOut(SwitchedOff(w, op.key, op.deletes), op.calls - 3, op.deletes, k, op.pick)
      else Run(w, op).result.Err? && Run(w, op).result != Err(Panic) && Run(w, op).world == w
  {
  }

  lemma HandOverPanics(w: World, calls: nat, deletes: bool, k: KeyRecord, pick: string)
    ensures HandOverOut(w, calls, deletes, k, pick).result == Err(Panic)
      <==> calls >= 2 && ActiveDefaults(w, k.projectId) == {} && pick !in Actives(w, k.projectId)
  {
  }

  /** The picked key is an active one that is left, if there is one. */
  lemma PickIsLeft(w: World, op: Op)
    requires op.Disable? && Picks(w, op) && op.key in w.store && |Actives(w, w.store[op.key].projectId)| != 1
    ensures var actives := Actives(w, w.store[op.key].projectId);
      op.pick !in actives - {op.key} <==> actives == {}
  {
    var actives := Actives(w, w.store[op.key].projectId);
    if actives != {} {
      var d :| d in actives;
      MoreThanOne(actives, op.key, d);
    }
  }

  /** Disable indexes an empty list exactly when it comes that far and the project of its key has no
      active key. */
  lemma DisablePanicsExactlyWhen(w: World, op: Op)
    requires op.Disable? && Keyed(w) && Picks(w, op)
    ensures Run(w, op).result == Err(Panic)
      <==> op.calls >= 5 && op.key in w.store && Actives(w, w.store[op.key].projectId) == {}
  {
    if op.key in w.store {
      DisableHandsOver(w, op);
      var off, k := SwitchedOff(w, op.key, op.deletes), w.store[op.key].(active := false, default := false);
      SwitchedOffKeys(w, op.key, op.deletes);
      if op.calls >= 3 && |Actives(w, k.projectId)| != 1 {
        PickIsLeft(w, op);
        HandOverPanics(off, op.calls - 3, op.deletes, k, op.pick);
      }
    }
  }

  /** While the projects are served Disable finds a key to hand over to, whichever store call fails. */
  lemma ServedNeverPanics(w: World, op: Op)
    requires Sane(w) && Served(w) && Picks(w, op)
    ensures Run(w, op).result != Err(Panic)
  {
    if op.Disable? {
      DisablePanicsExactlyWhen(w, op);
    } else {
      OnlyDisablePanics(w, op);
    }
  }

  lemma OnlyDisablePanics(w: World, op: Op)
    requires !op.Disable?
    ensures Run(w, op).result != Err(Panic)
  {
  }

  /** No operation of the run is interrupted where it loses a default. */
  ghost predicate NoneLoses(w: World, ops: seq<Op>)
    decreases |ops|
  {
    ops != [] ==> !Loses(w, ops[0]) && NoneLoses(Run(w, ops[0]).world, ops[1..])
  }

  lemma {:induction false} CompletedNeverLoses(w: World, ops: seq<Op>)
    requires forall i :: 0 <= i < |ops| ==> Completes(ops[i])
    ensures NoneLoses(w, ops)
    decreases |ops|
  {
    if ops != [] {
      CompletedNeverLoses(Run(w, ops[0]).world, ops[1..]);
    }
  }

  /** No operation of the run indexes an empty list. */
  ghost predicate NonePanics(w: World, ops: seq<Op>)
    decreases |ops|
  {
    ops != [] ==> Run(w, ops[0]).result != Err(Panic) && NonePanics(Run(w, ops[0]).world, ops[1..])
  }

  /** The lifecycle invariant over every sequence of operations of which none loses a default, in
      particular of completed ones: each project that has a key has exactly one default key, it is
      active, and Disable never indexes an empty list. */
  lemma {:induction false} EveryProjectIsServed(w: World, ops: seq<Op>)
    requires Sane(w) && Served(w) && AllAllowed(w, ops) && NoneLoses(w, ops)
    ensures Sane(After(w, ops)) && Served(After(w, ops)) && NonePanics(w, ops)
    decreases |ops|
  {
    if ops != [] {
      RunKeepsSane(w, ops[0]);
      ServedExactlyWhen(w, ops[0]);
      ServedNeverPanics(w, ops[0]);
      EveryProjectIsServed(Run(w, ops[0]).world, ops[1..]);
    }
  }

  /** A completed rotation replaces the key: the new record has the old settings and the old
      default flag, the old one is switched off, and nothing else changes. */
  lemma RotateReplaces(w: World, op: Op)
    requires op.Rotate? && Sane(w) && Served(w) && Completes(op) && FreshKey(w, op) && op.key in w.store
    ensures var x := w.store[op.key];
      && Run(w, op).world.store == w.store[op.key := x.(active := false, default := false)]
                                          [op.newKey := x.(accessKey := op.newKey, active := true)]
      && Run(w, op).result == Ok(x.(accessKey := op.newKey, active := true))
  {
    var x := w.store[op.key];
    if !x.default {
      var d :| d in ActiveDefaults(w, x.projectId);
      SwitchedOffKeys(w, op.key, op.deletes);
      assert d in Actives(SwitchedOff(w, op.key, op.deletes), x.projectId);
    }
  }

  /** An update changes the given fields of its key and nothing else; a failed one changes nothing. */
  lemma UpdateChangesOnlyGiven(w: World, op: Op)
    requires op.Update? && Keyed(w)
    ensures var out, e := Run(w, op), op.edits;
      && (out.result.Err? ==> out.world == w)
      && (out.result.Ok? ==>
            op.key in w.store && out.world.store == w.store[op.key := out.result.key]
            && var x, y := w.store[op.key], out.result.key;
               && (y.projectId, y.accessKey, y.active, y.default) == (x.projectId, x.accessKey, x.active, x.default)
               && y.displayName == (if e.displayName.Some? then e.displayName.value else x.displayName)
               && y.requireOrigin == (if e.requireOrigin.Some? then e.requireOrigin.value else x.requireOrigin)
               && y.allowedOrigins == (if e.allowedOrigins.Some? then e.allowedOrigins.value else x.allowedOrigins)
               && y.allowedServices == (if e.allowedServices.Some? then e.allowedServices.value else x.allowedServices))
      && (Completes(op) && op.key in w.store ==>
            (out.result.Err? <==> e.allowedOrigins.Some? && !op.validOrigins))
  {
  }

  lemma SetDefaultEnds(w: World, op: Op)
    requires op.SetDefault? && Sane(w) && Completes(op) && op.pick in ActiveDefaults(w, op.projectId)
    requires op.key in w.store && w.store[op.key].projectId == op.projectId
    ensures Run(w, op).result.Ok?
    ensures Run(w, op).world.store ==
      if op.key == op.pick then w.store
      else w.store[op.pick := w.store[op.pick].(default := false)][op.key := w.store[op.key].(default := true)]
  {
  }

  /** A completed SetDefault on another key of the project moves the default flag there. */
  lemma SetDefaultMoves(w: World, op: Op)
    requires op.SetDefault? && Sane(w) && Served(w) && Completes(op) && Picks(w, op)
    requires op.key in w.store && w.store[op.key].projectId == op.projectId
    ensures Run(w, op).result.Ok?
    ensures forall k :: k in w.store && w.store[k].projectId == op.projectId ==>
        k in Run(w, op).world.store && Run(w, op).world.store[k] == w.store[k].(default := k == op.key)
    ensures forall k :: k in Run(w, op).world.store && Run(w, op).world.store[k].projectId != op.projectId ==>
        k in w.store && Run(w, op).world.store[k] == w.store[k]
  {
    SetDefaultEnds(w, op);
    OneActiveDefault(w, op.projectId, op.pick);
  }

  /** SetDefault does not look whether its target is active: from a good state it leaves a good
      state exactly when the target is not an inactive key of the project. */
  lemma SetDefaultIsSafeExactlyWhen(w: World, op: Op)
    requires op.SetDefault? && Sane(w) && Served(w) && Completes(op) && Picks(w, op)
    ensures Sane(Run(w, op).world) && Served(Run(w, op).world) <==> TargetsActive(w, op)
  {
    if TargetsActive(w, op) {
      RunKeepsSane(w, op);
      RunKeepsServed(w, op);
    } else {
      assert op.pick in ActiveDefaults(w, op.projectId);
      var k := Run(w, op).world.store[op.key];
      assert k.default && !k.active;
    }
  }

  /** Two keys, the second inactive: made the default, it leaves the project without an active one. */
  lemma SetDefaultCanPickAnInactiveKey()
    ensures var a := KeyRecord(1, "", "a", true, true, false, [], []);
      var w := World(map["a" := a, "b" := a.(accessKey := "b", active := false, default := false)], map[]);
      var op := SetDefault(4, true, 1, "b", "a");
      && Sane(w) && Served(w) && Run(w, op).result.Ok?
      && !Sane(Run(w, op).world) && !Served(Run(w, op).world)
  {
    var a := KeyRecord(1, "", "a", true, true, false, [], []);
    var w := World(map["a" := a, "b" := a.(accessKey := "b", active := false, default := false)], map[]);
    var op := SetDefault(4, true, 1, "b", "a");
    DefaultIsThere(w, "a");
    assert w.store["a"].accessKey == "a";
    var w' := Run(w, op).world;
    assert w'.store["b"].default && !w'.store["b"].active;
    assert ActiveDefaults(w', w'.store["b"].projectId) == {};
  }

  /** A rotation of the only key that fails after its first write leads there. */
  lemma FailedRotationThenPanic(k: KeyRecord, newKey: string, pick: string)
    requires k.active && k.default && newKey != k.accessKey
    ensures var w := World(map[k.accessKey := k], map[]);
      var rotate := Rotate(2, true, k.accessKey, true, newKey);
      var disable := Disable(6, true, k.accessKey, pick);
      && Sane(w) && Served(w) && Allowed(w, rotate) && Allowed(Run(w, rotate).world, disable)
      && Run(Run(w, rotate).world, disable).result == Err(Panic)
  {
    var w := World(map[k.accessKey := k], map[]);
    DefaultIsThere(w, k.accessKey);
    var w' := Run(w, Rotate(2, true, k.accessKey, true, newKey)).world;
    assert w'.store == map[k.accessKey := k.(active := false, default := false)];
    assert Actives(w', k.projectId) == {};
    DisablePanicsExactlyWhen(w', Disable(6, true, k.accessKey, pick));
  }

  /** A Disable that reports success keeps every project served, unless it is of the default key and
      its look-up of the default, the call after the write, fails. */
  lemma DisableSucceedsServedExactlyWhen(w: World, op: Op)
    requires op.Disable? && Sane(w) && Served(w) && Picks(w, op) && Run(w, op).result.Ok?
    ensures Served(Run(w, op).world) <==> !(op.calls == 3 && w.store[op.key].default)
  {
    var p := w.store[op.key].projectId;
    DisableServesExactlyWhen(w, op);
    if w.store[op.key].default {
      OneActiveDefault(w, p, op.key);
      assert Actives(w, p) != {};
      if 3 <= op.calls <= 5 {
        DisableDefaultEnds(w, op);
      }
    }
  }

  /** Two active keys: a Disable of the default one whose third call is the last that works reports
      success and leaves no default. */
  lemma DisableCanLoseTheDefault()
    ensures var a := KeyRecord(1, "", "a", true, true, false, [], []);
      var w := World(map["a" := a, "b" := a.(accessKey := "b", default := false)], map[]);
      var op := Disable(3, true, "a", "b");
      && Sane(w) && Served(w) && Picks(w, op) && Run(w, op).result.Ok? && !Served(Run(w, op).world)
  {
    var a := KeyRecord(1, "", "a", true, true, false, [], []);
    var w := World(map["a" := a, "b" := a.(accessKey := "b", default := false)], map[]);
    var op := Disable(3, true, "a", "b");
    DefaultIsThere(w, "a");
    assert w.store["a"].accessKey == "a";
    assert Actives(w, 1) == {"a", "b"};
    DisableDefaultEnds(w, op);
    DisableSucceedsServedExactlyWhen(w, op);
  }

  /** A project without a default cannot be given one: SetDefault fails and changes nothing. */
  lemma SetDefaultNeedsADefault(w: World, op: Op)
    requires op.SetDefault? && ActiveDefaults(w, op.projectId) == {}
    ensures Run(w, op).result.Err? && Run(w, op).world == w
  {
  }

  predicate Deletes(op: Op) {
    (op.Rotate? || op.Update? || op.SetDefault? || op.Disable?) ==> op.deletes
  }

  ghost predicate Clean(w: World) {
    Coherent(w) && Keyed(w)
  }

  lemma WriteKeepsClean(w: World, calls: nat, k: KeyRecord)
    requires Clean(w)
    ensures Clean(Write(w, calls, k, true).world)
  {
  }

  lemma CreateKeepsClean(w: World, calls: nat, p: nat, name: string, requireOrigin: bool, origins: seq<string>,
                         services: seq<nat>, valid: bool, newKey: string)
    requires Clean(w) && newKey !in w.store && newKey !in w.cache
    ensures Clean(CreateOut(w, calls, p, name, requireOrigin, origins, services, valid, newKey).world)
  {
  }

  lemma RotateKeepsClean(w: World, op: Op)
    requires op.Rotate? && Clean(w) && FreshKey(w, op) && op.deletes
    ensures Clean(Run(w, op).world)
  {
    if op.calls > 0 && op.key in w.store {
      var x := w.store[op.key];
      var off := Write(w, op.calls - 1, x.(active := false, default := false), true);
      WriteKeepsClean(w, op.calls - 1, x.(active := false, default := false));
      if off.result.Ok? {
        var made := CreateOut(off.world, off.calls, x.projectId, x.displayName, x.requireOrigin, x.allowedOrigins,
                              x.allowedServices, op.validOrigins, op.newKey);
        CreateKeepsClean(off.world, off.calls, x.projectId, x.displayName, x.requireOrigin, x.allowedOrigins,
                         x.allowedServices, op.validOrigins, op.newKey);
        if made.result.Ok? {
          WriteKeepsClean(made.world, made.calls, made.result.key.(default := true));
        }
      }
    }
  }

  lemma SetDefaultKeepsClean(w: World, op: Op)
    requires op.SetDefault? && Clean(w) && op.deletes
    ensures Clean(Run(w, op).world)
  {
    if op.calls >= 2 && op.key in w.store && op.pick in w.store {
      var off := Write(w, op.calls - 2, w.store[op.pick].(default := false), true);
      WriteKeepsClean(w, op.calls - 2, w.store[op.pick].(default := false));
      WriteKeepsClean(off.world, off.calls, w.store[op.key].(default := true));
    }
  }

  lemma DisableKeepsClean(w: World, op: Op)
    requires op.Disable? && Clean(w) && op.deletes
    ensures Clean(Run(w, op).world)
  {
    if op.calls >= 2 && op.key in w.store {
      var k := w.store[op.key].(active := false, default := false);
      var off := Write(w, op.calls - 2, k, true);
      WriteKeepsClean(w, op.calls - 2, k);
      if off.calls >= 2 && op.pick in off.world.store {
        WriteKeepsClean(off.world, off.calls - 2, off.world.store[op.pick].(default := true));
      }
    }
  }

  lemma RunKeepsClean(w: World, op: Op)
    requires Clean(w) && FreshKey(w, op) && Deletes(op)
    ensures Clean(Run(w, op).world)
  {
    match op
    case Create(calls, p, name, requireOrigin, origins, services, valid, newKey) =>
      CreateKeepsClean(w, calls, p, name, requireOrigin, origins, services, valid, newKey);
    case Rotate(_, _, _, _, _) => RotateKeepsClean(w, op);
    case Update(_, _, _, _, _) =>
    case SetDefault(_, _, _, _, _) => SetDefaultKeepsClean(w, op);
    case Disable(_, _, _, _) => DisableKeepsClean(w, op);
    case Fetch(_, _) =>
  }

  /** Every key the run generates is new when it is generated. */
  ghost predicate AllFresh(w: World, ops: seq<Op>)
    decreases |ops|
  {
    ops != [] ==> FreshKey(w, ops[0]) && AllFresh(Run(w, ops[0]).world, ops[1..])
  }

  /** Quota-cache coherence: over every sequence of key operations and fetches, with store failures
      anywhere but working invalidations, a cached quota carries the stored key record. */
  lemma {:induction false} CacheStaysCoherent(w: World, ops: seq<Op>)
    requires Coherent(w) && Keyed(w) && AllFresh(w, ops)
    requires forall i :: 0 <= i < |ops| ==> Deletes(ops[i])
    ensures Coherent(After(w, ops)) && Keyed(After(w, ops))
    decreases |ops|
  {
    if ops != [] {
      RunKeepsClean(w, ops[0]);
      CacheStaysCoherent(Run(w, ops[0]).world, ops[1..]);
    }
  }

  /** A store write without its invalidation, because the deletion fails or because the store
      applies the write and yet reports an error: the cache is still coherent exactly when the key
      was not cached or the record did not change. */
  lemma LostInvalidation(w: World, k: KeyRecord)
    requires Coherent(w)
    ensures Coherent(Written(w, k, false)) <==> k.accessKey !in w.cache || w.store[k.accessKey] == k
  {
  }

  /** The operation when its first failing store call takes effect and yet reports an error: the
      operation stops there, so the store is what one more working call would have left, and the
      cache misses the invalidation after that call. */
  function RunApplied(w: World, op: Op): World {
    World(Run(w, MoreCalls(op)).world.store, Run(w, op).world.cache)
  }

  function MoreCalls(op: Op): Op {
    if op.Fetch? then op else op.(calls := op.calls + 1)
  }

  /** Such failures break neither uniqueness, nor more projects than the interrupted operation with
      one more working call does. */
  lemma AppliedFailureServesExactlyWhen(w: World, op: Op)
    requires Sane(w) && Allowed(w, op)
    ensures Sane(RunApplied(w, op))
    ensures Served(w) ==> (Served(RunApplied(w, op)) <==> !Loses(w, MoreCalls(op)))
  {
    MoreIsAllowed(w, op);
    RunKeepsSane(w, MoreCalls(op));
    WithCache(Run(w, MoreCalls(op)).world, Run(w, op).world.cache);
    if Served(w) {
      ServedExactlyWhen(w, MoreCalls(op));
    }
  }

  /** Which operations leave a stale cache when the store call after the first `calls` ones takes
      effect and yet reports an error: those in which it is a write that changes a cached record. */
  predicate Stales(w: World, op: Op) {
    match op
    case Rotate(calls, _, key, _, _) =>
      calls == 1 && key in w.store && key in w.cache && (w.store[key].active || w.store[key].default)
    case Update(calls, _, key, edits, valid) =>
      calls == 1 && key in w.store && key in w.cache && (edits.allowedOrigins.Some? ==> valid)
      && Edited(w.store[key], edits) != w.store[key]
    case SetDefault(calls, _, p, key, pick) =>
      key in w.store && w.store[key].projectId == p && pick in ActiveDefaults(w, p) && pick != key
      && ((calls == 2 && pick in w.cache) || (calls == 3 && key in w.cache && !w.store[key].default))
    case Disable(calls, _, key, pick) =>
      key in w.store
      && var p := w.store[key].projectId;
         |Actives(w, p)| != 1
         && ((calls == 2 && key in w.cache && (w.store[key].active || w.store[key].default))
             || (calls == 5 && ActiveDefaults(w, p) - {key} == {} && pick in Actives(w, p) - {key} && pick in w.cache))
    case _ => false
  }

  /** Such failures break coherence exactly in those operations. */
  lemma AppliedFailureCoheresExactlyWhen(w: World, op: Op)
    requires Coherent(w) && Keyed(w) && FreshKey(w, op) && Deletes(op)
    ensures Coherent(RunApplied(w, op)) <==> !Stales(w, op)
  {
    RunKeepsClean(w, op);
    CoherentWith(Run(w, op).world, Run(w, MoreCalls(op)).world);
    match op
    case Create(_, _, _, _, _, _, _, _) => CreateStales(w, op);
    case Rotate(_, _, _, _, _) => RotateStales(w, op);
    case Update(_, _, _, _, _) => UpdateStales(w, op);
    case SetDefault(_, _, _, _, _) => SetDefaultStales(w, op);
    case Disable(_, _, _, _) => DisableStales(w, op);
    case Fetch(_, _) =>
  }

  /** The plain and the applied operation agree on the cached records. */
  ghost predicate Agrees(w: World, op: Op) {
    AgreeOn(Run(w, op).world.cache.Keys, Run(w, op).world, Run(w, MoreCalls(op)).world)
  }

  lemma CreateStales(w: World, op: Op)
    requires op.Create? && Coherent(w) && Keyed(w) && FreshKey(w, op)
    ensures Agrees(w, op)
  {
  }

  lemma RotateStales(w: World, op: Op)
    requires op.Rotate? && Coherent(w) && Keyed(w) && FreshKey(w, op) && op.deletes
    ensures Agrees(w, op) <==> !Stales(w, op)
  {
  }

  lemma UpdateStales(w: World, op: Op)
    requires op.Update? && Coherent(w) && Keyed(w) && op.deletes
    ensures Agrees(w, op) <==> !Stales(w, op)
  {
  }

  lemma SetDefaultStales(w: World, op: Op)
    requires op.SetDefault? && Coherent(w) && Keyed(w) && op.deletes
    ensures Agrees(w, op) <==> !Stales(w, op)
  {
    if Stales(w, op) {
      var changed := if op.calls == 2 then op.pick else op.key;
      assert changed in Run(w, op).world.cache;
      assert Run(w, op).world.store[changed] != Run(w, MoreCalls(op)).world.store[changed];
    }
  }

  lemma HandOverWorld(w: World, calls: nat, deletes: bool, k: KeyRecord, pick: string)
    ensures HandOverOut(w, calls, deletes, k, pick).world ==
      if calls >= 3 && ActiveDefaults(w, k.projectId) == {} && pick in Actives(w, k.projectId)
      then Written(w, w.store[pick].(default := true), deletes) else w
  {
  }

  /** What a Disable leaves, for every number of working store calls. */
  lemma DisableWorld(w: World, op: Op)
    requires op.Disable? && Keyed(w) && op.key in w.store
    ensures var off, p := SwitchedOff(w, op.key, op.deletes), w.store[op.key].projectId;
      Run(w, op).world ==
        if op.calls <= 2 || |Actives(w, p)| == 1 then w
        else if op.calls >= 6 && ActiveDefaults(off, p) == {} && op.pick in Actives(off, p)
        then Written(off, off.store[op.pick].(default := true), op.deletes)
        else off
  {
    DisableHandsOver(w, op);
    if op.calls >= 3 {
      HandOverWorld(SwitchedOff(w, op.key, op.deletes), op.calls - 3, op.deletes,
                    w.store[op.key].(active := false, default := false), op.pick);
    }
  }

  lemma DisableStales(w: World, op: Op)
    requires op.Disable? && Coherent(w) && Keyed(w) && op.deletes
    ensures Agrees(w, op) <==> !Stales(w, op)
  {
    if op.key in w.store {
      DisableWorld(w, op);
      DisableWorld(w, MoreCalls(op));
      SwitchedOffKeys(w, op.key, op.deletes);
      DisabledWorlds(w, op, Run(w, op).world, Run(w, MoreCalls(op)).world);
    } else {
      assert Run(w, op).world == w == Run(w, MoreCalls(op)).world;
    }
  }

  lemma DisabledWorlds(w: World, op: Op, plain: World, applied: World)
    requires op.Disable? && Coherent(w) && Keyed(w) && op.key in w.store && op.deletes
    requires var off, p := SwitchedOff(w, op.key, true), w.store[op.key].projectId;
      var rest, defaults := Actives(w, p) - {op.key}, ActiveDefaults(w, p) - {op.key};
      && plain == (if op.calls <= 2 || |Actives(w, p)| == 1 then w
                   else if op.calls >= 6 && defaults == {} && op.pick in rest
                   then Written(off, off.store[op.pick].(default := true), true) else off)
      && applied == (if op.calls <= 1 || |Actives(w, p)| == 1 then w
                     else if op.calls >= 5 && defaults == {} && op.pick in rest
                     then Written(off, off.store[op.pick].(default := true), true) else off)
    ensures AgreeOn(plain.cache.Keys, plain, applied) <==> !Stales(w, op)
  {
    if Stales(w, op) {
      var changed := if op.calls == 2 then op.key else op.pick;
      assert changed in plain.cache && plain.store[changed] != applied.store[changed];
    }
  }

  /** Two active keys, the default one cached: its Disable stops at a write that takes effect and yet
      reports an error, and the cache goes on serving the key as active. */
  lemma DisableCanLeaveAStaleCache()
    ensures var a := KeyRecord(1, "", "a", true, true, false, [], []);
      var w := World(map["a" := a, "b" := a.(accessKey := "b", default := false)], map["a" := a]);
      var op := Disable(2, true, "a", "b");
      && Coherent(w) && Run(w, op).result == Err(StoreFailure)
      && !RunApplied(w, op).store["a"].active && FetchOut(RunApplied(w, op), "a", true).result == Ok(a)
  {
    var a := KeyRecord(1, "", "a", true, true, false, [], []);
    var w := World(map["a" := a, "b" := a.(accessKey := "b", default := false)], map["a" := a]);
    assert w.store["b"].accessKey == "b";
    assert Actives(w, 1) == {"a", "b"};
  }

  ghost predicate AgreeOn(keys: set<string>, a: World, b: World) {
    forall k :: k in keys ==> k in a.store && k in b.store && a.store[k] == b.store[k]
  }

  lemma MoreIsAllowed(w: World, op: Op)
    requires Allowed(w, op)
    ensures Allowed(w, MoreCalls(op))
  {
  }

  lemma CoherentWith(plain: World, applied: World)
    requires Coherent(plain)
    ensures Coherent(World(applied.store, plain.cache)) <==> AgreeOn(plain.cache.Keys, plain, applied)
  {
  }

  lemma WithCache(w: World, cache: map<string, KeyRecord>)
    ensures Sane(w) ==> Sane(World(w.store, cache))
    ensures Served(w) <==> Served(World(w.store, cache))
  {
    assert forall p :: ActiveDefaults(w, p) == ActiveDefaults(World(w.store, cache), p);
  }

  /** A cached key that is disabled without its invalidation stays active in the cache. */
  lemma DisabledKeyStaysCached(k: KeyRecord)
    requires k.active
    ensures var w := World(map[k.accessKey := k], map[k.accessKey := k]);
      var w' := Written(w, k.(active := false, default := false), false);
      && Coherent(w) && !Coherent(w') && FetchOut(w', k.accessKey, true).result == Ok(k)
  {
    var w := World(map[k.accessKey := k], map[k.accessKey := k]);
    LostInvalidation(w, k.(active := false, default := false));
  }
}
