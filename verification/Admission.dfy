/** The usage middleware: the gate before a request and the spend after it, and what they admit. */
module Admission {
  import opened Options
  import opened Limits
  import opened Amounts
  import opened Calendar
  import opened CacheKeys
  import opened SpendProtocol
  import opened SpendRuns
  import opened CallCourses
  import opened UsageCache
  import opened QuotaClient

  datatype Verdict = Next(spending: bool) | Rejected(error: Failure)

  /** A metered request through the gate and then the spend, from a counter that nobody else changes. */
  function Admit(l: ServiceLimit, cell: Option<int>, ledger: int, cost: int): Alone {
    if cell == Some(SENTINEL) then Alone(Timeout, 0, cell, None)
    else
      var usage := if cell.Some? then cell.value else ledger;
      if usage + cost > l.overMax then Alone(Exceeded, usage, Some(usage), None)
      else SpendAlone(l, Some(usage), ledger, cost)
  }

  /** The same request with others acting between its commands and any of them failing. */
  function AdmitCourse(l: ServiceLimit, cell: Option<int>, w: World, n: nat, cost: int): Call {
    var e := EnsureCourse(cell, w, n, 0);
    if e.usage.None? then Call(if e.timedOut then Timeout else Failed, 0, None, e.clock, e.cell)
    else if e.usage.value + cost > l.overMax then Call(Exceeded, e.usage.value, None, e.clock, e.cell)
    else CallCourse(l, e.cell, w, e.clock, cost)
  }

  function VerdictOf(o: Outcome): Verdict {
    match o
    case Spent => Next(true)
    case Exceeded => Rejected(QuotaExceeded)
    case Timeout => Rejected(TimedOut)
    case Failed => Rejected(Unavailable)
    case Unmetered => Next(false)
  }

  /** Whatever others do and whatever fails, a metered request is admitted exactly when it is
      credited, and then in full; only a rejection over the quota may still be credited in part. */
  lemma AdmittedExactlyWhenCredited(l: ServiceLimit, cell: Option<int>, w: World, n: nat, cost: int)
    requires Valid(l) && cost > 0
    ensures var c := AdmitCourse(l, cell, w, n, cost);
      && VerdictOf(c.outcome) != Next(false)
      && (VerdictOf(c.outcome) == Next(true) <==> c.credit == Some(cost))
      && (c.credit.Some? && c.credit.value < cost ==>
            VerdictOf(c.outcome) == Rejected(QuotaExceeded) && 0 <= c.credit.value)
  {
    var c := AdmitCourse(l, cell, w, n, cost);
    if c.credit.Some? {
      CreditIsMetered(l, cost, c.total);
    }
  }

  /** What a verdict tells about the gate: a time-out, an error, or a usage that leaves no room for the
      cost rejects the request, which then is not credited; otherwise the spend decides. */
  lemma VerdictTells(l: ServiceLimit, cell: Option<int>, w: World, n: nat, cost: int)
    requires Valid(l) && cost > 0
    ensures var e, c := EnsureCourse(cell, w, n, 0), AdmitCourse(l, cell, w, n, cost);
      && (e.timedOut ==> VerdictOf(c.outcome) == Rejected(TimedOut) && c.credit.None?)
      && (e.usage.None? && !e.timedOut ==> VerdictOf(c.outcome) == Rejected(Unavailable) && c.credit.None?)
      && (e.usage.Some? && e.usage.value + cost > l.overMax ==>
            VerdictOf(c.outcome) == Rejected(QuotaExceeded) && c.credit.None? && c.cell == e.cell)
      && (e.usage.Some? && e.usage.value + cost <= l.overMax ==> c == CallCourse(l, e.cell, w, e.clock, cost))
  {
    EnsureReturnsTheCounter(cell, w, n, 0);
  }

  /** Without others and failures it is the lone request. */
  lemma QuietAdmission(l: ServiceLimit, cell: Option<int>, w: World, n: nat, ledger: int, cost: int)
    requires Quiet(w, ledger) && cost != 0
    ensures var c, r := AdmitCourse(l, cell, w, n, cost), Admit(l, cell, ledger, cost);
      c.outcome == r.outcome && c.total == r.total && c.credit == r.credit && c.cell == r.cell
  {
    QuietEnsure(cell, w, n, ledger);
    var e := EnsureCourse(cell, w, n, 0);
    if e.usage.Some? {
      QuietCallIsAlone(l, e.cell, w, e.clock, ledger, cost);
    }
  }

  /** One request: it is admitted exactly when it fits under the hard limit, an admitted request is
      credited in full, and a rejected one is not credited and leaves the counter as it was. */
  lemma AdmittedExactlyWhenItFits(l: ServiceLimit, cell: Option<int>, ledger: int, cost: int)
    requires Valid(l) && cost > 0 && ledger >= 0 && (cell.Some? ==> cell.value >= 0)
    ensures var used, r := if cell.Some? then cell.value else ledger, Admit(l, cell, ledger, cost);
      && (VerdictOf(r.outcome) == Next(true) <==> used + cost <= l.overMax)
      && (VerdictOf(r.outcome) == Rejected(QuotaExceeded) <==> used + cost > l.overMax)
      && r.credit == (if used + cost <= l.overMax then Some(cost) else None)
      && r.cell == Some(if used + cost <= l.overMax then used + cost else used)
  {
  }

  /** What the gate changes for a lone request: without it, exactly the requests that start below
      the hard limit and end above it would be rejected and yet billed in part. */
  lemma GateSavesPartialCharges(l: ServiceLimit, cell: Option<int>, ledger: int, cost: int)
    requires Valid(l) && cost > 0 && ledger >= 0 && (cell.Some? ==> cell.value >= 0)
    ensures var used := if cell.Some? then cell.value else ledger;
      var alone, gated := SpendAlone(l, cell, ledger, cost), Admit(l, cell, ledger, cost);
      && (alone.outcome.Spent? <==> gated.outcome.Spent?)
      && (alone.credit != gated.credit <==> used < l.overMax < used + cost)
      && (alone.credit != gated.credit ==> alone.outcome.Exceeded? && alone.credit == Some(l.overMax - used))
  {
  }

  /** The requests of a run, one at a time. The counter stays live between them. */
  function Serve(l: ServiceLimit, cell: Option<int>, ledger: int, costs: seq<int>): seq<Alone>
    decreases |costs|
  {
    if costs == [] then []
    else
      var r := Admit(l, cell, ledger, costs[0]);
      [r] + Serve(l, r.cell, ledger, costs[1..])
  }

  /** The reference: take each cost in turn that still fits. */
  function Fitting(used: int, limit: int, costs: seq<int>): seq<bool>
    decreases |costs|
  {
    if costs == [] then [] else [used + costs[0] <= limit] + Fitting(Taken(used, limit, costs[0]), limit, costs[1..])
  }

  function Taken(used: int, limit: int, cost: int): int {
    if used + cost <= limit then used + cost else used
  }

  function Credits(rs: seq<Alone>): int {
    if rs == [] then 0 else (if rs[0].credit.Some? then rs[0].credit.value else 0) + Credits(rs[1..])
  }

  /** Admitted and credited in full if it fits, rejected and not credited if it does not. */
  predicate Exact(r: Alone, fits: bool, cost: int) {
    && VerdictOf(r.outcome) == (if fits then Next(true) else Rejected(QuotaExceeded))
    && r.credit == if fits then Some(cost) else None
  }

  lemma {:induction false} ServedAreFitting(l: ServiceLimit, cell: Option<int>, ledger: int, costs: seq<int>)
    requires Valid(l) && ledger >= 0 && (cell.Some? ==> cell.value >= 0)
    requires forall k :: 0 <= k < |costs| ==> costs[k] > 0
    ensures var rs, fits := Serve(l, cell, ledger, costs), Fitting(if cell.Some? then cell.value else ledger, l.overMax, costs);
      |rs| == |fits| == |costs| && forall k :: 0 <= k < |costs| ==> Exact(rs[k], fits[k], costs[k])
    decreases |costs|
  {
    if costs != [] {
      var used := if cell.Some? then cell.value else ledger;
      AdmittedExactlyWhenItFits(l, cell, ledger, costs[0]);
      var r := Admit(l, cell, ledger, costs[0]);
      ServedAreFitting(l, r.cell, ledger, costs[1..]);
      assert r.cell == Some(Taken(used, l.overMax, costs[0]));
    }
  }

  lemma {:induction false} CounterIsCredited(l: ServiceLimit, cell: Option<int>, ledger: int, costs: seq<int>, k: nat)
    requires Valid(l) && ledger >= 0 && (cell.Some? ==> cell.value >= 0) && k < |costs|
    requires forall k :: 0 <= k < |costs| ==> costs[k] > 0
    ensures var used, rs := if cell.Some? then cell.value else ledger, Serve(l, cell, ledger, costs);
      |rs| == |costs| && rs[k].cell == Some(used + Credits(rs[..k + 1])) && rs[k].cell.value <= Max(used, l.overMax)
    decreases |costs|
  {
    var rs := Serve(l, cell, ledger, costs);
    ServedAreFitting(l, cell, ledger, costs);
    AdmittedExactlyWhenItFits(l, cell, ledger, costs[0]);
    assert rs[..k + 1][1..] == rs[1..][..k];
    if k > 0 {
      CounterIsCredited(l, rs[0].cell, ledger, costs[1..], k - 1);
    }
  }

  /** Gated admission over a whole run: a request is admitted exactly when its cost still fits,
      every admitted request is credited in full and no other is credited, the counter is the
      opening usage plus the credits so far, and it never exceeds the hard limit. */
  lemma GatedAdmissionIsExact(l: ServiceLimit, cell: Option<int>, ledger: int, costs: seq<int>)
    requires Valid(l) && ledger >= 0 && (cell.Some? ==> cell.value >= 0)
    requires forall k :: 0 <= k < |costs| ==> costs[k] > 0
    ensures var used := if cell.Some? then cell.value else ledger;
      var rs, fits := Serve(l, cell, ledger, costs), Fitting(used, l.overMax, costs);
      && |rs| == |fits| == |costs|
      && (forall k :: 0 <= k < |costs| ==> Exact(rs[k], fits[k], costs[k]))
      && (forall k :: 0 <= k < |costs| ==>
            rs[k].cell == Some(used + Credits(rs[..k + 1])) && rs[k].cell.value <= Max(used, l.overMax))
  {
    ServedAreFitting(l, cell, ledger, costs);
    forall k | 0 <= k < |costs|
      ensures var used, rs := if cell.Some? then cell.value else ledger, Serve(l, cell, ledger, costs);
        rs[k].cell == Some(used + Credits(rs[..k + 1])) && rs[k].cell.value <= Max(used, l.overMax)
    {
      CounterIsCredited(l, cell, ledger, costs, k);
    }
  }

  /** The request's cost, from its context or the client's default. */
  function CostOf(cost: Option<int>, defaultUsage: int): int {
    if cost.Some? then cost.value else defaultUsage
  }

  /** What makes a request pass unmetered. */
  predicate Passes(enabled: bool, quota: Option<AccessQuota>, cost: int) {
    !enabled || quota.None? || cost == 0
  }

  function GateVerdict(limits: map<string, ServiceLimit>, name: string, e: Checking, cost: int): Verdict {
    if e.usage.None? then Rejected(if e.timedOut then TimedOut else Unavailable)
    else if name !in limits then Rejected(NoServiceLimit)
    else if e.usage.value + cost > limits[name].overMax then Rejected(QuotaExceeded)
    else Next(false)
  }

  /** The gate has read the usage, which initialises an absent counter, and has spent nothing. */
  ghost predicate Gated(key: string, e: Checking, v: View, v': View) {
    v' == v.(cells := Put(v.cells, key, e.cell), clock := e.clock)
  }

  /** The gate. */
  method EnsureUsage(client: Client, enabled: bool, defaultUsage: int, quota: Option<AccessQuota>,
                     cost: Option<int>, now: Time)
    returns (v: Verdict)
    requires quota.Some? ==> Dated(quota.value, now)
    modifies client.cache
    ensures Passes(enabled, quota, CostOf(cost, defaultUsage)) ==> v == Next(false) && client.Now() == old(client.Now())
    ensures !Passes(enabled, quota, CostOf(cost, defaultUsage)) ==>
        var key := CounterKey(quota.value, client.service, now);
        var e := EnsureCourse(CellOf(old(client.cache.cells), key), client.cache.world, old(client.cache.clock), 0);
        && Gated(key, e, old(client.Now()), client.Now())
        && v == GateVerdict(quota.value.limits, ServiceString(client.service), e, CostOf(cost, defaultUsage))
  {
    if !enabled || quota.None? {
      return Next(false);
    }
    var cu := if cost.Some? then cost.value else defaultUsage;
    if cu == 0 {
      return Next(false);
    }
    var usage, timedOut := client.FetchUsage(quota.value, now);
    if usage.None? {
      return Rejected(if timedOut then TimedOut else Unavailable);
    }
    if ServiceString(client.service) !in quota.value.limits {
      return Rejected(NoServiceLimit);
    }
    if usage.value + cu > quota.value.limits[ServiceString(client.service)].overMax {
      return Rejected(QuotaExceeded);
    }
    return Next(false);
  }

  function Pass(reply: Reply): (v: Verdict)
    ensures forall c: Call :: reply == Answer(c) ==> v == VerdictOf(c.outcome)
  {
    if reply.error.Some? then Rejected(reply.error.value) else Next(reply.spent)
  }

  /** The spend around the request. */
  method SpendUsage(client: Client, enabled: bool, defaultUsage: int, quota: Option<AccessQuota>,
                    cost: Option<int>, now: Time, at: Instant)
    returns (v: Verdict)
    requires quota.Some? ==> Dated(quota.value, now)
    modifies client`notified, client.cache, client.tracker
    ensures Passes(enabled, quota, CostOf(cost, defaultUsage)) ==> v == Next(false) && client.Now() == old(client.Now())
    ensures !Passes(enabled, quota, CostOf(cost, defaultUsage)) && ServiceString(client.service) !in quota.value.limits ==>
        v == Rejected(NoServiceLimit) && client.Now() == old(client.Now())
    ensures !Passes(enabled, quota, CostOf(cost, defaultUsage)) && ServiceString(client.service) in quota.value.limits ==>
        var l, key := quota.value.limits[ServiceString(client.service)], CounterKey(quota.value, client.service, now);
        var c := CallCourse(l, CellOf(old(client.cache.cells), key), client.cache.world, old(client.cache.clock),
                            CostOf(cost, defaultUsage));
        && v == VerdictOf(c.outcome)
        && Effect(l, key, Entry(at, BilledTo(quota.value)), CostOf(cost, defaultUsage), c, client.accepts,
                  old(client.Now()), client.Now())
  {
    if !enabled || quota.None? {
      return Next(false);
    }
    var cu := if cost.Some? then cost.value else defaultUsage;
    if cu == 0 {
      return Next(false);
    }
    if ServiceString(client.service) !in quota.value.limits {
      return Rejected(NoServiceLimit);
    }
    var reply := client.SpendQuota(quota, cu, now, at);
    v := Pass(reply);
  }

  /** A request through both handlers: one that passes unmetered changes nothing; one without a limit
      is rejected by the gate, which may have initialised the counter; any other ends as AdmitCourse
      says. */
  method ServeRequest(client: Client, enabled: bool, defaultUsage: int, quota: Option<AccessQuota>,
                      cost: Option<int>, now: Time, at: Instant)
    returns (v: Verdict)
    requires quota.Some? ==> Dated(quota.value, now)
    modifies client`notified, client.cache, client.tracker
    ensures !enabled || quota.None? || (if cost.Some? then cost.value else defaultUsage) == 0 ==>
        v == Next(false) && client.Now() == old(client.Now())
    ensures enabled && quota.Some? && ServiceString(client.service) !in quota.value.limits ==>
        (if cost.Some? then cost.value else defaultUsage) != 0 ==>
        var key := CounterKey(quota.value, client.service, now);
        var e := EnsureCourse(CellOf(old(client.cache.cells), key), client.cache.world, old(client.cache.clock), 0);
        && v == Rejected(if e.timedOut then TimedOut else if e.usage.None? then Unavailable else NoServiceLimit)
        && Gated(key, e, old(client.Now()), client.Now())
    ensures enabled && quota.Some? && ServiceString(client.service) in quota.value.limits ==>
        var cu := if cost.Some? then cost.value else defaultUsage;
        cu != 0 ==>
        var l, key := quota.value.limits[ServiceString(client.service)], CounterKey(quota.value, client.service, now);
        var c := AdmitCourse(l, CellOf(old(client.cache.cells), key), client.cache.world, old(client.cache.clock), cu);
        && v == VerdictOf(c.outcome)
        && Effect(l, key, Entry(at, BilledTo(quota.value)), cu, c, client.accepts, old(client.Now()), client.Now())
  {
    if Passes(enabled, quota, CostOf(cost, defaultUsage)) {
      v := EnsureUsage(client, enabled, defaultUsage, quota, cost, now);
      v := SpendUsage(client, enabled, defaultUsage, quota, cost, now, at);
    } else {
      v := Meter(client, defaultUsage, quota.value, cost, CounterKey(quota.value, client.service, now), now, at);
    }
  }

  /** The metered part. */
  method Meter(client: Client, defaultUsage: int, quota: AccessQuota, cost: Option<int>, ghost key: string,
               now: Time, at: Instant)
    returns (v: Verdict)
    requires Dated(quota, now) && CostOf(cost, defaultUsage) != 0 && key == CounterKey(quota, client.service, now)
    modifies client`notified, client.cache, client.tracker
    ensures ServiceString(client.service) !in quota.limits ==>
        var e := EnsureCourse(CellOf(old(client.cache.cells), key), client.cache.world, old(client.cache.clock), 0);
        && v == Rejected(if e.timedOut then TimedOut else if e.usage.None? then Unavailable else NoServiceLimit)
        && Gated(key, e, old(client.Now()), client.Now())
    ensures ServiceString(client.service) in quota.limits ==>
        var l := quota.limits[ServiceString(client.service)];
        var c := AdmitCourse(l, CellOf(old(client.cache.cells), key), client.cache.world, old(client.cache.clock),
                             CostOf(cost, defaultUsage));
        && v == VerdictOf(c.outcome)
        && Effect(l, key, Entry(at, BilledTo(quota)), CostOf(cost, defaultUsage), c, client.accepts,
                  old(client.Now()), client.Now())
  {
    ghost var before := client.Now();
    EnsureReturnsTheCounter(CellOf(client.cache.cells, key), client.cache.world, client.cache.clock, 0);
    ghost var e := EnsureCourse(CellOf(client.cache.cells, key), client.cache.world, client.cache.clock, 0);
    v := EnsureUsage(client, true, defaultUsage, Some(quota), cost, now);
    if v.Rejected? {
      return;
    }
    PutTwice(before.cells, key, e.cell, e.cell);
    v := SpendUsage(client, true, defaultUsage, Some(quota), cost, now, at);
    ghost var l := quota.limits[ServiceString(client.service)];
    EffectSpreadsBack(l, key, Entry(at, BilledTo(quota)), CostOf(cost, defaultUsage),
                      CallCourse(l, e.cell, client.cache.world, e.clock, CostOf(cost, defaultUsage)),
                      client.accepts, before, e.cell, e.clock, client.Now());
  }
}
