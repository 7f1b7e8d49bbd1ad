/** The client: EnsureUsage, SpendQuota and Stop over the shared cache and its own tracker. */
module QuotaClient {
  import opened Options
  import opened Limits
  import opened Amounts
  import opened Calendar
  import opened CacheKeys
  import opened SpendProtocol
  import opened SpendRuns
  import opened CallCourses
  import opened SpendInterleaving
  import opened UsageSync
  import opened UsageCache

  datatype AccessQuota = AccessQuota(
    projectId: nat,
    accessKey: string,
    cycle: Option<Cycle>,
    limits: map<string, ServiceLimit>)

  datatype Failure = QuotaExceeded | TimedOut | Unavailable | NoServiceLimit

  /** What SpendQuota returns. */
  datatype Reply = Reply(spent: bool, total: int, error: Option<Failure>)

  /** Every time of the source has a date of the calendar. */
  predicate Dated(q: AccessQuota, now: Time) {
    ValidDate(GetStart(q.cycle, now).date) && ValidDate(GetEnd(q.cycle, now).date)
  }

  function CounterKey(q: AccessQuota, service: nat, now: Time): string
    requires Dated(q, now)
  {
    CacheKeyQuota(q.projectId, q.cycle, Some(service), now)
  }

  function BilledTo(q: AccessQuota): Owner {
    if q.accessKey == "" then Project(q.projectId) else AccessKey(q.accessKey)
  }

  /** What SpendQuota returns for a call that ends so. */
  function Answer(c: Call): Reply {
    match c.outcome
    case Spent => Reply(true, c.total, None)
    case Exceeded => Reply(false, c.total, Some(QuotaExceeded))
    case Timeout => Reply(false, 0, Some(TimedOut))
    case Failed => Reply(false, 0, Some(Unavailable))
    case Unmetered => Reply(false, 0, None)
  }

  /** The events that reach the server, of which `accepts` says which ones it takes. */
  function Delivered(accepts: EventType -> bool, events: seq<EventType>): seq<EventType> {
    if |events| == 1 && accepts(events[0]) then events else []
  }

  /** The tracker has grown by a credit for e, if there is one, and by nothing else. */
  ghost predicate Billed(u: Usage, u': Usage, e: Entry, credit: Option<int>) {
    && (forall x :: AmountIn(u', x) == AmountIn(u, x) + (if credit.Some? && x == e then credit.value else 0))
    && (forall x :: Pending(u', x) <==> Pending(u, x) || (credit.Some? && x == e))
  }

  /** What a call of SpendQuota can change: the counters, how many commands the client has sent, the
      tracker, and the notified events. */
  datatype View = View(cells: map<string, int>, clock: nat, usage: Usage, notified: seq<EventType>)

  /** What the call c on counter `key`, billed to e, has changed. */
  ghost predicate Effect(l: ServiceLimit, key: string, e: Entry, cost: int, c: Call, accepts: EventType -> bool,
                         v: View, v': View) {
    && v'.cells == Put(v.cells, key, c.cell) && v'.clock == c.clock
    && Billed(v.usage, v'.usage, e, c.credit)
    && v'.notified
       == v.notified + (if c.outcome.Spent? then Delivered(accepts, Raised(l, cost, c.total)) else [])
  }

  /** An effect after EnsureUsage, which has changed the counter only, is one from before it. */
  lemma EffectSpreadsBack(l: ServiceLimit, key: string, e: Entry, cost: int, c: Call, accepts: EventType -> bool,
                          v: View, cell: Option<int>, clock: nat, v': View)
    requires Effect(l, key, e, cost, c, accepts, v.(cells := Put(v.cells, key, cell), clock := clock), v')
    ensures Effect(l, key, e, cost, c, accepts, v, v')
  {
    PutTwice(v.cells, key, cell, c.cell);
  }

  /** A call of SpendQuota is a run of the step machine, whatever others do between its commands and
      whichever of them fail: at its end the counter is the same, and the last two steps of its
      thread add to the tracker what the call adds, accept its cost exactly if it returns spent =
      true, and notify what it notifies. */
  lemma SpendQuotaIsARun(l: ServiceLimit, key: string, s: State, i: nat, env: nat -> seq<Action>, faults: nat -> Fault,
                         w: World, accepts: EventType -> bool, v: View, v': View)
    returns (c: Call, t: State, u: State)
    requires i < |s.threads| && s.threads[i].pc == Pc.Ensuring(0)
    requires ByOthers(i, env) && Meets(l, s, i, env, faults, w, v.clock)
    ensures c == CallCourse(l, s.cell, w, v.clock, s.threads[i].req.cost) && v.clock < c.clock
    ensures t == Interleaved(l, s, i, env, faults, c.clock - v.clock) && |t.threads| == |s.threads|
    ensures Stands(t, i, s.threads[i].req, Point(LastPc(c), c.cell))
    ensures u == if c.credit.Some? then Exec(l, t, LastSteps(l, i, s.threads[i].req, c, accepts)) else t
    ensures Effect(l, key, s.threads[i].req.entry, s.threads[i].req.cost, c, accepts, v, v') ==>
        && t.cell == CellOf(v'.cells, key)
        && i < |u.threads| && u.threads[i] == Thread(s.threads[i].req, Done(c.outcome))
        && Matches(t, u, s.threads[i].req, Answer(c).spent, v, v')
  {
    c, t := CallIsARun(l, s, i, env, faults, w, v.clock);
    var req := s.threads[i].req;
    u := if c.credit.Some? then Exec(l, t, LastSteps(l, i, req, c, accepts)) else t;
    if Effect(l, key, req.entry, req.cost, c, accepts, v, v') {
      var _ := EffectMatches(l, key, t, i, req, c, accepts, v, v');
    }
  }

  predicate Delivers(accepts: EventType -> bool, events: seq<EventType>) {
    Delivered(accepts, events) == events
  }

  /** What is left for the thread of a credited call. */
  function LastSteps(l: ServiceLimit, i: nat, req: Request, c: Call, accepts: EventType -> bool): seq<Action> {
    [Action.Record(i), Finish(i, Delivers(accepts, Raised(l, req.cost, c.total)))]
  }

  lemma EffectMatches(l: ServiceLimit, key: string, t: State, i: nat, req: Request, c: Call, accepts: EventType -> bool,
                      v: View, v': View)
    returns (u: State)
    requires Stands(t, i, req, Point(LastPc(c), c.cell)) && Effect(l, key, req.entry, req.cost, c, accepts, v, v')
    requires c.credit.None? ==> !c.outcome.Spent?
    requires c.credit.Some? ==> Settles(l, t, Exec(l, t, LastSteps(l, i, req, c, accepts)), i, c,
                                        Delivers(accepts, Raised(l, req.cost, c.total)))
    ensures c.cell == CellOf(v'.cells, key)
    ensures u == if c.credit.Some? then Exec(l, t, LastSteps(l, i, req, c, accepts)) else t
    ensures i < |u.threads| && u.threads[i] == Thread(req, Done(c.outcome))
    ensures Matches(t, u, req, Answer(c).spent, v, v')
  {
    PutTwice(v.cells, key, c.cell, c.cell);
    if c.credit.Some? {
      u := Exec(l, t, LastSteps(l, i, req, c, accepts));
      SettlesMatches(l, key, t, u, i, c, accepts, v, v');
    } else {
      u := t;
      EndedMatches(l, key, t, c, req, accepts, v, v');
    }
  }

  lemma SettlesMatches(l: ServiceLimit, key: string, t: State, u: State, i: nat, c: Call, accepts: EventType -> bool,
                       v: View, v': View)
    requires i < |t.threads|
    requires var req := t.threads[i].req;
      && Effect(l, key, req.entry, req.cost, c, accepts, v, v')
      && Settles(l, t, u, i, c, Delivers(accepts, Raised(l, req.cost, c.total)))
    ensures Matches(t, u, t.threads[i].req, Answer(c).spent, v, v')
  {
    var req := t.threads[i].req;
    var more := if c.outcome.Spent? then Delivered(accepts, Raised(l, req.cost, c.total)) else [];
    assert u.notified == t.notified + more && v'.notified == v.notified + more;
  }

  lemma EndedMatches(l: ServiceLimit, key: string, t: State, c: Call, req: Request, accepts: EventType -> bool,
                     v: View, v': View)
    requires Effect(l, key, req.entry, req.cost, c, accepts, v, v') && c.credit.None? && !c.outcome.Spent?
    ensures Matches(t, t, req, Answer(c).spent, v, v')
  {
    assert t.notified == t.notified + [] && v'.notified == v.notified + [];
  }

  /** What the machine's steps from t to u add is what the call has added. */
  ghost predicate Matches(t: State, u: State, req: Request, spent: bool, v: View, v': View) {
    && u.cell == t.cell && u.pipe.ledger == t.pipe.ledger
    && u.returned - t.returned == (if spent then req.cost else 0)
    && (exists more :: u.notified == t.notified + more && v'.notified == v.notified + more)
    && |u.pipe.procs| == |t.pipe.procs|
    && (req.process < |t.pipe.procs| ==> forall x ::
          Amount(u.pipe.procs[req.process].tracker, x) - Amount(t.pipe.procs[req.process].tracker, x)
          == AmountIn(v'.usage, x) - AmountIn(v.usage, x))
  }

  class Client {
    const service: nat
    const cache: RedisCache
    const tracker: Tracker
    const quotaServer: UsageServer
    // Which notifications reach the server, and the events they have brought there.
    const accepts: EventType -> bool
    var notified: seq<EventType>
    var running: int

    constructor (service: nat, cache: RedisCache, quotaServer: UsageServer, accepts: EventType -> bool,
                 others: nat -> seq<Adding>)
      ensures this.service == service && this.cache == cache && this.quotaServer == quotaServer
      ensures this.accepts == accepts
      ensures fresh(tracker) && tracker.usage == map[] && notified == [] && running == 0
    {
      this.service, this.cache, this.quotaServer, this.accepts := service, cache, quotaServer, accepts;
      tracker := new Tracker(others);
      notified, running := [], 0;
    }

    ghost function Now(): View
      reads this, cache, tracker
    {
      View(cache.cells, cache.clock, tracker.usage, notified)
    }

    method EnsureUsage(q: AccessQuota, now: Time) returns (usage: Option<int>, timedOut: bool)
      requires Dated(q, now)
      modifies cache
      ensures var key := CounterKey(q, service, now);
        var e := EnsureCourse(CellOf(old(cache.cells), key), cache.world, old(cache.clock), 0);
        && usage == e.usage && timedOut == e.timedOut
        && cache.clock == e.clock && cache.cells == Put(old(cache.cells), key, e.cell)
    {
      usage, timedOut := EnsureCounter(CounterKey(q, service, now));
    }

    /** The retry loop, and the initialisation by the client that a peek has elected. */
    method EnsureCounter(key: string) returns (usage: Option<int>, timedOut: bool)
      modifies cache
      ensures var e := EnsureCourse(CellOf(old(cache.cells), key), cache.world, old(cache.clock), 0);
        && usage == e.usage && timedOut == e.timedOut
        && cache.clock == e.clock && cache.cells == Put(old(cache.cells), key, e.cell)
    {
      ghost var e := EnsureCourse(CellOf(cache.cells, key), cache.world, cache.clock, 0);
      ghost var before := cache.cells;
      PutTwice(before, key, CellOf(before, key), None);
      var i := 0;
      while i < ATTEMPTS
        invariant 0 <= i <= ATTEMPTS
        invariant cache.cells == Put(before, key, CellOf(cache.cells, key))
        invariant EnsureCourse(CellOf(cache.cells, key), cache.world, cache.clock, i) == e
      {
        ghost var cell := CellOf(cache.cells, key);
        var waits;
        waits, usage := Attempt(key, i);
        PutTwice(before, key, cell, CellOf(cache.cells, key));
        if !waits {
          return usage, false;
        }
        i := i + 1;
      }
      return None, true;
    }

    /** One round of the loop: either it has to wait, or the loop ends. */
    method Attempt(key: string, ghost attempt: nat) returns (waits: bool, usage: Option<int>)
      requires attempt < ATTEMPTS
      modifies cache
      ensures cache.cells == Put(old(cache.cells), key, CellOf(cache.cells, key))
      ensures var e := EnsureCourse(CellOf(old(cache.cells), key), cache.world, old(cache.clock), attempt);
        if waits then EnsureCourse(CellOf(cache.cells, key), cache.world, cache.clock, attempt + 1) == e
        else e == Checking(usage, false, cache.clock, CellOf(cache.cells, key))
    {
      ghost var cell, n := CellOf(cache.cells, key), cache.clock;
      ghost var p := PeekCourse(cell, cache.world, n);
      EnsureUnfolds(cell, cache.world, n, attempt);
      var peek := cache.PeekUsage(key);
      PutTwice(old(cache.cells), key, p.cell, p.cell);
      match peek
      case Wait => return true, None;
      case Broken => return false, None;
      case Usage(v) => return false, Some(v);
      case Ready =>
        usage := Initialise(key);
        PutTwice(old(cache.cells), key, p.cell, CellOf(cache.cells, key));
        PutTwice(cache.cells, key, CellOf(cache.cells, key), None);
        waits := false;
    }

    /** The ledger read of GetUsage, and SetUsage. */
    method Initialise(key: string) returns (usage: Option<int>)
      modifies cache
      ensures var read, write := cache.world(old(cache.clock)), cache.world(old(cache.clock) + 1);
        var found := Found(CellOf(old(cache.cells), key), read);
        if !read.fault.Works? then
          usage.None? && cache.clock == old(cache.clock) + 1 && cache.cells == Put(old(cache.cells), key, found)
        else
          && usage == (if write.fault.Works? then Some(read.ledger) else None)
          && cache.clock == old(cache.clock) + 2
          && cache.cells
             == Put(old(cache.cells), key, if write.fault.Fails? then Found(found, write) else Some(read.ledger))
    {
      var read := cache.Meet(key);
      if !read.fault.Works? {
        return None;
      }
      ghost var found := CellOf(cache.cells, key);
      PutTwice(old(cache.cells), key, Found(CellOf(old(cache.cells), key), read), found);
      var ok := cache.SetUsage(key, read.ledger);
      PutTwice(old(cache.cells), key, found, CellOf(cache.cells, key));
      return if ok then Some(read.ledger) else None;
    }

    method FetchUsage(q: AccessQuota, now: Time) returns (usage: Option<int>, timedOut: bool)
      requires Dated(q, now)
      modifies cache
      ensures var key := CounterKey(q, service, now);
        var e := EnsureCourse(CellOf(old(cache.cells), key), cache.world, old(cache.clock), 0);
        && usage == e.usage && timedOut == e.timedOut
        && cache.clock == e.clock && cache.cells == Put(old(cache.cells), key, e.cell)
    {
      usage, timedOut := EnsureUsage(q, now);
    }

    /** SpendQuota, with `at` the same moment as `now`. */
    method SpendQuota(quota: Option<AccessQuota>, cost: int, now: Time, at: Instant) returns (reply: Reply)
      requires quota.Some? ==> Dated(quota.value, now)
      modifies this`notified, cache, tracker
      ensures quota.None? || cost == 0 || ServiceString(service) !in quota.value.limits ==>
          reply == Reply(false, 0, None) && Now() == old(Now())
      ensures quota.Some? && cost != 0 && ServiceString(service) in quota.value.limits ==>
          var l, key := quota.value.limits[ServiceString(service)], CounterKey(quota.value, service, now);
          var c := CallCourse(l, CellOf(old(cache.cells), key), cache.world, old(cache.clock), cost);
          reply == Answer(c) && Effect(l, key, Entry(at, BilledTo(quota.value)), cost, c, accepts, old(Now()), Now())
      ensures quota.Some? && quota.value.accessKey != "" ==>
          forall x :: x != Entry(at, AccessKey(quota.value.accessKey)) ==>
            AmountIn(tracker.usage, x) == AmountIn(old(tracker.usage), x)
      ensures quota.Some? && quota.value.accessKey == "" ==>
          forall x :: x != Entry(at, Project(quota.value.projectId)) ==>
            AmountIn(tracker.usage, x) == AmountIn(old(tracker.usage), x)
    {
      if quota.None? || cost == 0 {
        return Reply(false, 0, None);
      }
      var q := quota.value;
      if ServiceString(service) !in q.limits {
        return Reply(false, 0, None);
      }
      reply := Spend(q, q.limits[ServiceString(service)], CounterKey(q, service, now), cost, at);
    }

    /** SpendQuota on a service with a limit. */
    method Spend(q: AccessQuota, cfg: ServiceLimit, key: string, cost: int, at: Instant) returns (reply: Reply)
      requires cost != 0
      modifies this`notified, cache, tracker
      ensures var c := CallCourse(cfg, CellOf(old(cache.cells), key), cache.world, old(cache.clock), cost);
        reply == Answer(c) && Effect(cfg, key, Entry(at, BilledTo(q)), cost, c, accepts, old(Now()), Now())
    {
      ghost var e := EnsureCourse(CellOf(cache.cells, key), cache.world, cache.clock, 0);
      ghost var before := Now();
      var usage, timedOut := EnsureCounter(key);
      if usage.None? {
        return Reply(false, 0, Some(if timedOut then TimedOut else Unavailable));
      }
      if usage.value >= cfg.overMax {
        return Reply(false, usage.value, Some(QuotaExceeded));
      }
      PutTwice(old(cache.cells), key, e.cell, e.cell);
      ghost var c := SpendCourse(cfg, e.cell, cache.world, e.clock, cost);
      PutTwice(old(cache.cells), key, e.cell, c.cell);
      reply := SpendChecked(q, cfg, key, cost, at);
      EffectSpreadsBack(cfg, key, Entry(at, BilledTo(q)), cost, c, accepts, before, e.cell, e.clock, Now());
    }

    /** SpendQuota after EnsureUsage let the call through. */
    method SpendChecked(q: AccessQuota, cfg: ServiceLimit, key: string, cost: int, at: Instant) returns (reply: Reply)
      modifies this`notified, cache, tracker
      ensures var c := SpendCourse(cfg, CellOf(old(cache.cells), key), cache.world, old(cache.clock), cost);
        reply == Answer(c) && Effect(cfg, key, Entry(at, BilledTo(q)), cost, c, accepts, old(Now()), Now())
    {
      var spending := cache.SpendUsage(key, cost, cfg.overMax);
      if spending.OverLimit? {
        return Reply(false, 0, Some(QuotaExceeded));
      }
      if spending.Lost? {
        return Reply(false, 0, Some(Unavailable));
      }
      reply := Charge(q, cfg, cost, at, spending.total);
    }

    /** The end of SpendQuota, after the increment: the tracker, then the notification. */
    method Charge(q: AccessQuota, cfg: ServiceLimit, cost: int, at: Instant, total: int) returns (reply: Reply)
      modifies this`notified, tracker
      ensures reply == if Credit(cfg, cost, total) < cost then Reply(false, total, Some(QuotaExceeded))
                       else Reply(true, total, None)
      ensures Billed(old(tracker.usage), tracker.usage, Entry(at, BilledTo(q)), Some(Credit(cfg, cost, total)))
      ensures notified == old(notified) + (if reply.spent then Delivered(accepts, Raised(cfg, cost, total)) else [])
    {
      var result := GetSpendResult(cfg, cost, total);
      if q.accessKey == "" {
        tracker.AddProjectUsage(q.projectId, at, result.credit);
      } else {
        tracker.AddKeyUsage(q.accessKey, at, result.credit);
      }
      if result.credit < cost {
        return Reply(false, total, Some(QuotaExceeded));
      }
      if result.event.Some? && accepts(result.event.value) {
        notified := notified + [result.event.value];
      }
      return Reply(true, total, None);
    }

    /** The start of Run: it refuses to run twice. */
    method Run() returns (ok: bool)
      modifies this`running
      ensures ok <==> old(running) != 1
      ensures running == 1
    {
      ok := running != 1;
      running := 1;
    }

    /** One last sync of a running client, over RPC or in process; only the first Stop syncs, so
        what is recorded after it stays in the tracker. */
    method Stop(rpc: bool)
      modifies this`running, tracker, quotaServer
      ensures old(running) == 1 ==>
          && running == 2
          && SyncResult(quotaServer.faults, rpc, old(tracker.usage), old(quotaServer.ledger), old(tracker.heard),
                        tracker.usage, quotaServer.ledger, tracker.heard)
          && tracker.HeardSince(old(tracker.heard), old(tracker.clock))
      ensures old(running) != 1 ==>
          && running == old(running) && quotaServer.ledger == old(quotaServer.ledger)
          && tracker.usage == old(tracker.usage) && tracker.heard == old(tracker.heard)
    {
      if running != 1 || running == 2 {
        return;
      }
      running := 2;
      var _ := tracker.SyncUsage(quotaServer, rpc);
    }
  }

  /** The sync of Stop stores all that was pending exactly when every entry could be stored; then only
      what others have recorded meanwhile is left. */
  lemma FinalFlush(f: Faults, rpc: bool, u: Usage, ledger: Bag, h: Bag, u': Usage, ledger': Bag, h': Bag)
    requires SyncResult(f, rpc, u, ledger, h, u', ledger', h')
    ensures (forall e :: Amount(ledger', e) == Amount(ledger, e) + AmountIn(u, e))
      <==> (forall e :: AmountIn(u, e) != 0 ==> Stores(f, e))
    ensures (forall e :: AmountIn(u, e) != 0 ==> Stores(f, e)) ==>
        forall e :: AmountIn(u', e) == Amount(h', e) - Amount(h, e)
  {
  }

  /** Whom a credited call is billed to: the access key of its quota if that has one, and then no
      project; the project otherwise, and then no access key. */
  lemma KeysAreBilledBeforeProjects(l: ServiceLimit, key: string, q: AccessQuota, at: Instant, cost: int, c: Call,
                                    accepts: EventType -> bool, v: View, v': View)
    requires Effect(l, key, Entry(at, BilledTo(q)), cost, c, accepts, v, v') && c.credit.Some?
    ensures q.accessKey != "" ==>
        var e := Entry(at, AccessKey(q.accessKey));
        && AmountIn(v'.usage, e) == AmountIn(v.usage, e) + c.credit.value
        && (forall x: Entry :: x.owner.Project? ==> AmountIn(v'.usage, x) == AmountIn(v.usage, x))
    ensures q.accessKey == "" ==>
        var e := Entry(at, Project(q.projectId));
        && AmountIn(v'.usage, e) == AmountIn(v.usage, e) + c.credit.value
        && (forall x: Entry :: x.owner.AccessKey? ==> AmountIn(v'.usage, x) == AmountIn(v.usage, x))
    ensures forall x: Entry :: x.now != at ==> AmountIn(v'.usage, x) == AmountIn(v.usage, x)
  {
  }

  /** Which calls share a counter: exactly those of the same project and service whose windows start
      and end on the same days. */
  lemma CountersAgreeExactlyWhen(q: AccessQuota, service: nat, now: Time, q': AccessQuota, service': nat, now': Time)
    requires Dated(q, now) && Dated(q', now')
    ensures CounterKey(q, service, now) == CounterKey(q', service', now') <==>
      && q.projectId == q'.projectId
      && (service == service' || (service > 8 && service' > 8))
      && GetStart(q.cycle, now).date == GetStart(q'.cycle, now').date
      && GetEnd(q.cycle, now).date == GetEnd(q'.cycle, now').date
  {
    KeysAreFaithful(q.projectId, Some(service), GetStart(q.cycle, now).date, GetEnd(q.cycle, now).date,
                    q'.projectId, Some(service'), GetStart(q'.cycle, now').date, GetEnd(q'.cycle, now').date);
  }

  /** A call of one service or project does not change what another one's EnsureUsage finds. */
  lemma OtherCountersAreUntouched(l: ServiceLimit, q: AccessQuota, service: nat, now: Time, e: Entry, cost: int, c: Call,
                                  accepts: EventType -> bool, v: View, v': View,
                                  q': AccessQuota, service': nat, now': Time, w: World, n: nat)
    requires Dated(q, now) && Dated(q', now')
    requires Effect(l, CounterKey(q, service, now), e, cost, c, accepts, v, v')
    requires q.projectId != q'.projectId || (service != service' && (service <= 8 || service' <= 8))
    ensures var key' := CounterKey(q', service', now');
      && CellOf(v'.cells, key') == CellOf(v.cells, key')
      && EnsureCourse(CellOf(v'.cells, key'), w, n, 0) == EnsureCourse(CellOf(v.cells, key'), w, n, 0)
  {
    CountersAgreeExactlyWhen(q, service, now, q', service', now');
    PutElsewhere(v.cells, CounterKey(q, service, now), c.cell, CounterKey(q', service', now'));
  }

  /** What a reply of SpendQuota tells its caller. */
  lemma ReplyTells(l: ServiceLimit, cell: Option<int>, w: World, n: nat, cost: int)
    requires Valid(l) && cost > 0
    ensures var e, c := EnsureCourse(cell, w, n, 0), CallCourse(l, cell, w, n, cost);
      var r := Answer(c);
      && (r.spent <==> c.credit == Some(cost))
      && (r.spent <==> r.error.None?)
      && (c.credit.Some? ==> Some(r.total) == c.cell && (!r.spent ==> r.error == Some(QuotaExceeded)))
      && (r.error == Some(TimedOut) <==> e.timedOut)
      && (e.usage.None? ==> r.total == 0 && (!e.timedOut ==> r.error == Some(Unavailable)))
      && (e.usage.Some? && e.usage.value >= l.overMax ==> r == Reply(false, e.usage.value, Some(QuotaExceeded)))
      && (r.error.Some? ==> r.error.value in {QuotaExceeded, TimedOut, Unavailable})
  {
    EnsureReturnsTheCounter(cell, w, n, 0);
    var c := CallCourse(l, cell, w, n, cost);
    if c.credit.Some? {
      CreditOfCall(l, cell, w, n, cost);
      CreditIsMetered(l, cost, c.total);
    }
  }

  /** And what it tells when EnsureUsage has let the call through: the peek before the increment may
      find another client's placeholder, no counter, or a counter at the limit by then; and the
      increment may fail. None of these is credited, and the total is not told. */
  lemma LateReplyTells(l: ServiceLimit, cell: Option<int>, w: World, n: nat, cost: int)
    requires Valid(l) && cost > 0
    requires var e := EnsureCourse(cell, w, n, 0); e.usage.Some? && e.usage.value < l.overMax
    ensures var e, c := EnsureCourse(cell, w, n, 0), CallCourse(l, cell, w, n, cost);
      var p := PeekCourse(e.cell, w, e.clock);
      && (!p.peek.Usage? ==> Answer(c) == Reply(false, 0, Some(Unavailable)) && c.credit.None?)
      && (p.peek.Usage? && p.peek.value >= l.overMax ==>
            Answer(c) == Reply(false, 0, Some(QuotaExceeded)) && c.credit.None?)
      && (p.peek.Usage? && p.peek.value < l.overMax && !w(p.clock).fault.Works? ==>
            Answer(c) == Reply(false, 0, Some(Unavailable)) && c.credit.None?)
      && (p.peek.Usage? && p.peek.value < l.overMax && w(p.clock).fault.Works? ==> c.credit.Some?)
  {
  }

  /** The reply, credit and counter of a call that meets nobody and no failure, in numbers. */
  lemma LoneReply(l: ServiceLimit, cell: Option<int>, w: World, n: nat, ledger: int, cost: int)
    requires Valid(l) && cost > 0 && Quiet(w, ledger) && ledger >= 0
    ensures var c := CallCourse(l, cell, w, n, cost);
      var used := if cell.Some? then cell.value else ledger;
      && (cell == Some(-1) ==> Answer(c) == Reply(false, 0, Some(TimedOut)) && c.credit.None? && c.cell == cell)
      && (used >= l.overMax ==>
            Answer(c) == Reply(false, used, Some(QuotaExceeded)) && c.credit.None? && c.cell == Some(used))
      && (0 <= used && used + cost <= l.overMax ==>
            Answer(c) == Reply(true, used + cost, None) && c.credit == Some(cost) && c.cell == Some(used + cost))
      && (0 <= used < l.overMax < used + cost ==>
            && Answer(c) == Reply(false, used + cost, Some(QuotaExceeded))
            && c.credit == Some(l.overMax - used) && c.cell == Some(used + cost))
  {
    QuietCallIsAlone(l, cell, w, n, ledger, cost);
    CreditIsMetered(l, cost, (if cell.Some? then cell.value else ledger) + cost);
  }

  /** Which event a call notifies: exactly the one its spend crosses to, or the hard limit it lands on,
      if the call returns spent = true and the notification gets through; and never more than one. */
  lemma NotifiesExactlyWhen(l: ServiceLimit, key: string, e: Entry, cell: Option<int>, w: World, n: nat, cost: int,
                            accepts: EventType -> bool, v: View, v': View, x: EventType)
    requires Valid(l) && cost > 0
    requires Effect(l, key, e, cost, CallCourse(l, cell, w, n, cost), accepts, v, v')
    ensures var c := CallCourse(l, cell, w, n, cost);
      v'.notified == v.notified + [x] <==>
        && accepts(x) && c.credit == Some(cost)
        && if x.OverMax? then c.total == l.overMax else Crosses(l, cost, c.total, x)
    ensures v'.notified == v.notified || exists y :: v'.notified == v.notified + [y]
  {
    var c := CallCourse(l, cell, w, n, cost);
    NotifiedGrows(l, cost, c, accepts, v, v', x);
    AnnouncedExactlyWhen(l, cost, c.total, x);
    if c.credit.Some? {
      CreditOfCall(l, cell, w, n, cost);
      CreditIsMetered(l, cost, c.total);
    } else {
      SpentIsCredited(l, cell, w, n, cost);
    }
  }

  lemma SpentIsCredited(l: ServiceLimit, cell: Option<int>, w: World, n: nat, cost: int)
    ensures var c := CallCourse(l, cell, w, n, cost); c.outcome.Spent? ==> c.credit.Some?
  {
  }

  lemma NotifiedGrows(l: ServiceLimit, cost: int, c: Call, accepts: EventType -> bool, v: View, v': View, x: EventType)
    requires v'.notified == v.notified + (if c.outcome.Spent? then Delivered(accepts, Raised(l, cost, c.total)) else [])
    ensures v'.notified == v.notified + [x] <==> c.outcome.Spent? && accepts(x) && Event(l, cost, c.total) == Some(x)
    ensures v'.notified == v.notified || exists y :: v'.notified == v.notified + [y]
  {
    var more := if c.outcome.Spent? then Delivered(accepts, Raised(l, cost, c.total)) else [];
    assert v'.notified[|v.notified|..] == more;
    if v'.notified == v.notified + [x] {
      assert v'.notified[|v.notified|..] == [x];
    }
    if more == [] {
      assert v'.notified == v.notified;
    } else {
      assert v'.notified == v.notified + [more[0]];
    }
  }
}
