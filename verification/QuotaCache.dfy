/** The two-level quota cache: an in-memory LRU in front of Redis, either of which may lose any
    entry at any time. */
module QuotaCache {
  import opened Options
  import opened CacheKeys

  /** A cached quota: the project and access key it is for, and everything else it says. */
  datatype Quota = Quota(projectId: nat, accessKey: string, terms: nat)

  datatype Reply = Found(quota: Quota) | NotFound | Failed

  datatype Layers = Layers(mem: map<string, Quota>, backend: map<string, Quota>)

  const EMPTY: Layers := Layers(map[], map[])

  /** The operations of the LRU, with `up` saying whether the backend answers, and the losses:
      an eviction or expiry in memory, an expiry in Redis. */
  datatype Op =
    | Get(key: string, up: bool)
    | Set(key: string, quota: Quota, up: bool)
    | Delete(key: string, up: bool)
    | Evict(key: string)
    | Expire(key: string)

  function ProjectKey(projectId: nat): string {
    "project:" + Decimal(projectId)
  }

  /** What a get finds while the backend answers. */
  function Lookup(s: Layers, key: string): Option<Quota> {
    if key in s.mem then Some(s.mem[key])
    else if key in s.backend then Some(s.backend[key])
    else None
  }

  /** What a get answers. */
  function ReplyOf(s: Layers, key: string, up: bool): Reply {
    if !up && key !in s.mem then Failed
    else match Lookup(s, key) case Some(q) => Found(q) case None => NotFound
  }

  function Step(s: Layers, op: Op): Layers {
    match op
    case Get(key, up) =>
      if key !in s.mem && up && key in s.backend then s.(mem := s.mem[key := s.backend[key]]) else s
    case Set(key, quota, up) =>
      // The memory is written under the key, the backend under the quota's own access key.
      Layers(s.mem[key := quota], if up then s.backend[quota.accessKey := quota] else s.backend)
    case Delete(key, up) => Layers(s.mem - {key}, if up then s.backend - {key} else s.backend)
    case Evict(key) => s.(mem := s.mem - {key})
    case Expire(key) => s.(backend := s.backend - {key})
  }

  /** The layers after a run that starts with both empty. */
  function After(ops: seq<Op>): Layers {
    if ops == [] then EMPTY else Step(After(ops[..|ops| - 1]), ops[|ops| - 1])
  }

  /** The reference: the value last set for the key and not deleted since. */
  function Last(ops: seq<Op>, key: string): Option<Quota> {
    if ops == [] then None else Update(Last(ops[..|ops| - 1], key), ops[|ops| - 1], key)
  }

  function Update(before: Option<Quota>, op: Op, key: string): Option<Quota> {
    if op.Set? && op.key == key then Some(op.quota)
    else if op.Delete? && op.key == key then None
    else before
  }

  /** Whatever a get can find after ops is the last value set and not deleted. */
  ghost predicate Agrees(ops: seq<Op>) {
    forall key :: Lookup(After(ops), key).Some? ==> Lookup(After(ops), key) == Last(ops, key)
  }

  /** A write that reaches the backend under its own key. */
  predicate Safe(op: Op) {
    match op
    case Set(key, quota, up) => up && quota.accessKey == key
    case Delete(_, up) => up
    case _ => true
  }

  predicate AllSafe(ops: seq<Op>) {
    forall i :: 0 <= i < |ops| ==> Safe(ops[i])
  }

  /** Both layers hold only values of the reference map. */
  ghost predicate Within(s: Layers, ops: seq<Op>) {
    && (forall key :: key in s.mem ==> Last(ops, key) == Some(s.mem[key]))
    && (forall key :: key in s.backend ==> Last(ops, key) == Some(s.backend[key]))
  }

  lemma Append(ops: seq<Op>, op: Op)
    ensures After(ops + [op]) == Step(After(ops), op)
    ensures forall key :: Last(ops + [op], key) == Update(Last(ops, key), op, key)
  {
  }

  lemma {:induction false} SafeKeepsWithin(ops: seq<Op>)
    requires AllSafe(ops)
    ensures Within(After(ops), ops)
  {
    if ops != [] {
      SafeKeepsWithin(ops[..|ops| - 1]);
    }
  }

  /** LRU refinement: for any sequence of safe operations and any losses in either layer, a get
      that succeeds returns the value last set for its key and not deleted since. */
  lemma LruRefines(ops: seq<Op>)
    requires AllSafe(ops)
    ensures Agrees(ops)
  {
    SafeKeepsWithin(ops);
  }

  /** Losses in memory are invisible: while Redis keeps its entries, the cache is the map. */
  lemma {:induction false} EvictionIsInvisible(ops: seq<Op>, key: string)
    requires AllSafe(ops) && forall i :: 0 <= i < |ops| ==> !ops[i].Expire?
    ensures Lookup(After(ops), key) == Last(ops, key)
    ensures Last(ops, key).Some? ==> key in After(ops).backend
  {
    if ops != [] {
      EvictionIsInvisible(ops[..|ops| - 1], key);
      SafeKeepsWithin(ops);
    }
  }

  /** A write is harmless in every context exactly when it is safe: when it is a set under another
      key than the quota's access key, or the backend fails on it, some run returns a wrong value. */
  lemma SafeExactlyWhen(op: Op)
    ensures Safe(op) <==> forall before, after :: AllSafe(before) && AllSafe(after) ==> Agrees(before + [op] + after)
  {
    if Safe(op) {
      forall before, after | AllSafe(before) && AllSafe(after) ensures Agrees(before + [op] + after) {
        LruRefines(before + [op] + after);
      }
    } else {
      UnsafeBreaks(op);
    }
  }

  /** A set under a foreign key leaves its value under the quota's access key, where nothing was set. */
  lemma ForeignSetBreaks(op: Op)
    requires op.Set? && op.up && op.quota.accessKey != op.key
    ensures !Agrees([op])
  {
    Append([], op);
    assert [] + [op] == [op];
    assert Lookup(After([op]), op.quota.accessKey).Some?;
  }

  /** A set or delete that the backend misses leaves the value it held before. */
  lemma MissedWriteBreaks(op: Op, stale: Quota)
    requires (op.Set? || op.Delete?) && !op.up
    requires stale.accessKey == op.key && (op.Set? ==> stale != op.quota)
    ensures !Agrees([Set(op.key, stale, true), op, Evict(op.key)])
  {
    var first, last := Set(op.key, stale, true), Evict(op.key);
    Append([], first);
    Append([first], op);
    Append([first, op], last);
    assert [] + [first] == [first] && [first] + [op] == [first, op] && [first, op] + [last] == [first, op, last];
    assert Lookup(After([first, op, last]), op.key) == Some(stale);
  }

  lemma UnsafeBreaks(op: Op)
    requires !Safe(op)
    ensures exists before, after :: AllSafe(before) && AllSafe(after) && !Agrees(before + [op] + after)
  {
    if op.Set? && op.up {
      ForeignSetBreaks(op);
      var none: seq<Op> := [];
      assert none + [op] + none == [op];
      assert AllSafe(none) && !Agrees(none + [op] + none);
    } else {
      var stale := Quota(0, op.key, if op.Set? then op.quota.terms + 1 else 0);
      MissedWriteBreaks(op, stale);
      var before, after := [Set(op.key, stale, true)], [Evict(op.key)];
      assert before + [op] + after == [before[0], op, after[0]];
      assert AllSafe(before) && AllSafe(after) && !Agrees(before + [op] + after);
    }
  }

  /** Neither a loss in memory nor another write concerns this key. */
  predicate Spares(op: Op, key: string) {
    !(op.Evict? && op.key == key) && !(op.Set? && op.key == key) && !(op.Delete? && op.key == key)
  }

  /** While memory keeps a value for the key, every get answers it, whether or not the backend does
      and whatever it holds. */
  lemma {:induction false} KeptStaysFound(before: seq<Op>, after: seq<Op>, key: string, q: Quota)
    requires forall up :: ReplyOf(After(before), key, up) == Found(q)
    requires forall i :: 0 <= i < |after| ==> Spares(after[i], key)
    ensures forall up :: ReplyOf(After(before + after), key, up) == Found(q)
    decreases |after|
  {
    if after == [] {
      assert before + after == before;
    } else {
      var shorter := after[..|after| - 1];
      KeptStaysFound(before, shorter, key, q);
      assert before + after == (before + shorter) + [after[|after| - 1]];
      Append(before + shorter, after[|after| - 1]);
      assert ReplyOf(After(before + shorter), key, false) == Found(q);
    }
  }

  /** A value that was set is found by every get until it is evicted, deleted or set again: for any
      key, a project's included, and whether the backend took the value, lost it or is down. */
  lemma SetStaysFound(before: seq<Op>, key: string, q: Quota, up: bool, after: seq<Op>)
    requires forall i :: 0 <= i < |after| ==> Spares(after[i], key)
    ensures forall answers :: ReplyOf(After(before + [Set(key, q, up)] + after), key, answers) == Found(q)
  {
    Append(before, Set(key, q, up));
    KeptStaysFound(before + [Set(key, q, up)], after, key, q);
  }

  /** So is a value that a get has found, for a get fills memory. */
  lemma FoundStaysFound(before: seq<Op>, key: string, q: Quota, up: bool, after: seq<Op>)
    requires ReplyOf(After(before), key, up) == Found(q)
    requires forall i :: 0 <= i < |after| ==> Spares(after[i], key)
    ensures forall answers :: ReplyOf(After(before + [Get(key, up)] + after), key, answers) == Found(q)
  {
    Append(before, Get(key, up));
    KeptStaysFound(before + [Get(key, up)], after, key, q);
  }

  /** What a get finds without memory is what the backend was last given for the key. */
  lemma BackendIsFound(before: seq<Op>, key: string, q: Quota, up: bool)
    requires key !in After(before).mem
    ensures up && q.accessKey == key ==>
        ReplyOf(After(before + [Set(key, q, up), Evict(key)]), key, true) == Found(q)
    ensures ReplyOf(After(before), key, false) == Failed
    ensures ReplyOf(After(before), key, true) == NotFound <==> key !in After(before).backend
  {
    Append(before, Set(key, q, up));
    Append(before + [Set(key, q, up)], Evict(key));
    assert before + [Set(key, q, up)] + [Evict(key)] == before + [Set(key, q, up), Evict(key)];
  }

  /** Projects have keys of their own, and none has the key of an access key without a colon. */
  lemma ProjectKeysDiffer(a: nat, b: nat, accessKey: string)
    ensures ProjectKey(a) == ProjectKey(b) <==> a == b
    ensures ':' !in accessKey ==> ProjectKey(a) != accessKey
  {
    DecimalRoundTrip(a);
    DecimalRoundTrip(b);
    assert ProjectKey(a)[8..] == Decimal(a) && ProjectKey(b)[8..] == Decimal(b);
    assert ProjectKey(a)[7] == ':';
  }

  /** A project's quota carries no access key, so it never reaches the backend under the project's
      key: once memory has lost it, the project finds what Redis had before (nothing, or an older
      quota), and the empty access key finds the project's quota. */
  lemma ProjectQuotaDoesNotSurvive(s: Layers, quota: Quota)
    requires quota.accessKey == ""
    ensures var key := ProjectKey(quota.projectId);
      var t := Step(Step(s, Set(key, quota, true)), Evict(key));
      && Lookup(t, key) == (if key in s.backend then Some(s.backend[key]) else None)
      && Lookup(Step(t, Evict("")), "") == Some(quota)
  {
  }

  /** Redis holding quotas; `up` says whether it answers. */
  class RedisQuotas {
    var entries: map<string, Quota>
    var up: bool

    constructor ()
      ensures entries == map[] && up
    {
      entries, up := map[], true;
    }

    method GetAccessQuota(accessKey: string) returns (r: Reply)
      ensures r == if !up then Failed else if accessKey in entries then Found(entries[accessKey]) else NotFound
    {
      if !up {
        return Failed;
      }
      if accessKey !in entries {
        return NotFound;
      }
      return Found(entries[accessKey]);
    }

    method SetAccessQuota(quota: Quota) returns (ok: bool)
      modifies this`entries
      ensures ok == up
      ensures entries == if up then old(entries)[quota.accessKey := quota] else old(entries)
    {
      ok := up;
      if up {
        entries := entries[quota.accessKey := quota];
      }
    }

    method DeleteAccessQuota(accessKey: string) returns (ok: bool)
      modifies this`entries
      ensures ok == up
      ensures entries == if up then old(entries) - {accessKey} else old(entries)
    {
      ok := up;
      if up {
        entries := entries - {accessKey};
      }
    }
  }

  class Lru {
    var mem: map<string, Quota>
    const backend: RedisQuotas

    constructor (backend: RedisQuotas)
      ensures this.backend == backend && mem == map[]
    {
      this.backend := backend;
      mem := map[];
    }

    ghost function Now(): Layers
      reads this, backend
    {
      Layers(mem, backend.entries)
    }

    method GetQuota(key: string) returns (r: Reply)
      modifies this`mem
      ensures Now() == Step(old(Now()), Get(key, backend.up))
      ensures r == ReplyOf(old(Now()), key, backend.up)
    {
      if key in mem {
        return Found(mem[key]);
      }
      r := backend.GetAccessQuota(key);
      if r.Found? {
        mem := mem[key := r.quota];
      }
    }

    method SetQuota(key: string, quota: Quota) returns (ok: bool)
      modifies this`mem, backend`entries
      ensures ok == backend.up
      ensures Now() == Step(old(Now()), Set(key, quota, backend.up))
    {
      mem := mem[key := quota];
      ok := backend.SetAccessQuota(quota);
    }

    method DeleteQuota(key: string) returns (ok: bool)
      modifies this`mem, backend`entries
      ensures ok == backend.up
      ensures Now() == Step(old(Now()), Delete(key, backend.up))
    {
      mem := mem - {key};
      ok := backend.DeleteAccessQuota(key);
    }

    method GetAccessQuota(accessKey: string) returns (r: Reply)
      modifies this`mem
      ensures Now() == Step(old(Now()), Get(accessKey, backend.up))
      ensures r == ReplyOf(old(Now()), accessKey, backend.up)
    {
      r := GetQuota(accessKey);
    }

    /** Through the access-key path every set is under the quota's own key. */
    method SetAccessQuota(quota: Quota) returns (ok: bool)
      modifies this`mem, backend`entries
      ensures ok == backend.up
      ensures Now() == Step(old(Now()), Set(quota.accessKey, quota, backend.up))
      ensures Safe(Set(quota.accessKey, quota, backend.up)) <==> ok
    {
      ok := SetQuota(quota.accessKey, quota);
    }

    method DeleteAccessQuota(accessKey: string) returns (ok: bool)
      modifies this`mem, backend`entries
      ensures ok == backend.up
      ensures Now() == Step(old(Now()), Delete(accessKey, backend.up))
    {
      ok := DeleteQuota(accessKey);
    }

    method GetProjectQuota(projectId: nat) returns (r: Reply)
      modifies this`mem
      ensures Now() == Step(old(Now()), Get(ProjectKey(projectId), backend.up))
      ensures r == ReplyOf(old(Now()), ProjectKey(projectId), backend.up)
    {
      r := GetQuota(ProjectKey(projectId));
    }

    method SetProjectQuota(quota: Quota) returns (ok: bool)
      modifies this`mem, backend`entries
      ensures ok == backend.up
      ensures Now() == Step(old(Now()), Set(ProjectKey(quota.projectId), quota, backend.up))
    {
      ok := SetQuota(ProjectKey(quota.projectId), quota);
    }

    method DeleteProjectQuota(projectId: nat) returns (ok: bool)
      modifies this`mem, backend`entries
      ensures ok == backend.up
      ensures Now() == Step(old(Now()), Delete(ProjectKey(projectId), backend.up))
    {
      ok := DeleteQuota(ProjectKey(projectId));
    }
  }
}
