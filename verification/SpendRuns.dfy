/** Runs of one call at a time, and runs that show why the environment assumptions are needed. */
module SpendRuns {
  import opened Options
  import opened Limits
  import opened SpendHistory
  import opened Amounts
  import opened SpendProtocol
  import opened SpendBooks
  import P = SyncPipeline

  /** What a call of SpendQuota that meets no other call does: how it ends, the total it returns,
      the counter it leaves and the credit it records (none if it never increments). */
  datatype Alone = Alone(outcome: Outcome, total: int, cell: Option<int>, credit: Option<int>)

  function SpendAlone(l: ServiceLimit, cell: Option<int>, ledger: int, cost: int): Alone {
    if cost == 0 then Alone(Unmetered, 0, cell, None)
    else if cell == Some(SENTINEL) then Alone(Timeout, 0, cell, None)
    else
      var start := if cell.Some? then cell.value else ledger;
      if start >= l.overMax then Alone(Exceeded, start, Some(start), None)
      // A ledger total that reads as the placeholder.
      else if start == SENTINEL then Alone(Failed, 0, Some(start), None)
      else Charged(l, start + cost, cost)
  }

  /** What is left of a call whose increment has brought the counter to total. */
  function Charged(l: ServiceLimit, total: int, cost: int): Alone {
    var credit := Credit(l, cost, total);
    Alone(if credit < cost then Exceeded else Spent, total, Some(total), Some(credit))
  }

  /** The event a call notifies: only when its whole cost is credited. */
  function EventsOf(l: ServiceLimit, cost: int, r: Alone): seq<EventType> {
    if r.outcome.Spent? then Raised(l, cost, r.total) else []
  }

  function Raised(l: ServiceLimit, cost: int, total: int): seq<EventType> {
    if Event(l, cost, total).Some? then [Event(l, cost, total).value] else []
  }

  function EnsureActions(cell: Option<int>, i: nat, req: Request): seq<Action> {
    if req.cost == 0 then [Begin(i, req)]
    else if cell == Some(SENTINEL) then [Begin(i, req), Get(i), Get(i), Get(i)]
    else if cell.Some? then [Begin(i, req), Get(i)]
    else [Begin(i, req), Get(i), SetNx(i), ReadLedger(i), SetUsage(i)]
  }

  function SpendActions(i: nat, notifies: bool): seq<Action> {
    [Get(i), Incr(i)] + RecordActions(i, notifies)
  }

  function RecordActions(i: nat, notifies: bool): seq<Action> {
    [Record(i), Finish(i, notifies)]
  }

  function AloneActions(cell: Option<int>, i: nat, req: Request, notifies: bool): seq<Action> {
    EnsureActions(cell, i, req) + SpendActions(i, notifies)
  }

  lemma {:induction false} ExecAppend(l: ServiceLimit, s: State, xs: seq<Action>, ys: seq<Action>)
    ensures Exec(l, s, xs + ys) == Exec(l, Exec(l, s, xs), ys)
    decreases |xs|
  {
    if xs == [] {
      assert xs + ys == ys;
    } else {
      assert (xs + ys)[1..] == xs[1..] + ys;
      ExecAppend(l, Step(l, s, xs[0]), xs[1..], ys);
    }
  }

  lemma ExecOne(l: ServiceLimit, s: State, a: Action, rest: seq<Action>)
    ensures Exec(l, s, [a] + rest) == Exec(l, Step(l, s, a), rest)
  {
    assert ([a] + rest)[1..] == rest;
  }

  predicate Free(s: State, i: nat) {
    i < |s.threads| && (s.threads[i].pc.Idle? || s.threads[i].pc.Done?)
  }

  /** EnsureUsage of a client that finds no counter: it is elected, reads the ledger and sets it. */
  lemma InitialiserRun(l: ServiceLimit, s: State, i: nat, req: Request)
    requires Free(s, i) && req.process < |s.pipe.procs| && req.cost != 0 && s.cell.None?
    ensures var t := Exec(l, s, EnsureActions(s.cell, i, req));
      && t.threads == s.threads[i := Thread(req, Ensured(l, Ledger(s)))]
      && t.cell == Some(Ledger(s)) && t.pipe == s.pipe && t.spends == s.spends && t.returned == s.returned && t.notified == s.notified
  {
    var s1 := Step(l, s, Begin(i, req));
    ExecOne(l, s, Begin(i, req), [Get(i), SetNx(i), ReadLedger(i), SetUsage(i)]);
    ExecOne(l, s1, Get(i), [SetNx(i), ReadLedger(i), SetUsage(i)]);
    var s2 := Step(l, s1, Get(i));
    ExecOne(l, s2, SetNx(i), [ReadLedger(i), SetUsage(i)]);
    var s3 := Step(l, s2, SetNx(i));
    ExecOne(l, s3, ReadLedger(i), [SetUsage(i)]);
    var s4 := Step(l, s3, ReadLedger(i));
    ExecOne(l, s4, SetUsage(i), []);
  }

  /** EnsureUsage of a client that finds another one's placeholder, and finds it again and again. */
  lemma WaiterRun(l: ServiceLimit, s: State, i: nat, req: Request)
    requires Free(s, i) && req.process < |s.pipe.procs| && req.cost != 0 && s.cell == Some(SENTINEL)
    ensures var t := Exec(l, s, EnsureActions(s.cell, i, req));
      && t.threads == s.threads[i := Thread(req, Done(Timeout))]
      && t.cell == s.cell && t.pipe == s.pipe && t.spends == s.spends && t.returned == s.returned && t.notified == s.notified
  {
    var s1 := Step(l, s, Begin(i, req));
    ExecOne(l, s, Begin(i, req), [Get(i), Get(i), Get(i)]);
    ExecOne(l, s1, Get(i), [Get(i), Get(i)]);
    var s2 := Step(l, s1, Get(i));
    ExecOne(l, s2, Get(i), [Get(i)]);
    var s3 := Step(l, s2, Get(i));
    ExecOne(l, s3, Get(i), []);
  }

  /** The EnsureUsage half of a call that runs alone. */
  lemma EnsureRun(l: ServiceLimit, s: State, i: nat, req: Request)
    requires Free(s, i) && req.process < |s.pipe.procs|
    ensures var t := Exec(l, s, EnsureActions(s.cell, i, req));
      var start := if s.cell.Some? then s.cell.value else Ledger(s);
      && t.threads == s.threads[i := Thread(req,
           if req.cost == 0 then Done(Unmetered)
           else if s.cell == Some(SENTINEL) then Done(Timeout)
           else Ensured(l, start))]
      && t.cell == (if req.cost == 0 || s.cell == Some(SENTINEL) then s.cell else Some(start))
      && t.pipe == s.pipe && t.spends == s.spends && t.returned == s.returned && t.notified == s.notified
  {
    var s1 := Step(l, s, Begin(i, req));
    if req.cost == 0 {
      ExecOne(l, s, Begin(i, req), []);
    } else if s.cell.None? {
      InitialiserRun(l, s, i, req);
    } else if s.cell == Some(SENTINEL) {
      WaiterRun(l, s, i, req);
    } else {
      ExecOne(l, s, Begin(i, req), [Get(i)]);
      ExecOne(l, s1, Get(i), []);
    }
  }

  lemma EnsureThen(l: ServiceLimit, s: State, i: nat, req: Request, rest: seq<Action>) returns (u: State)
    requires Free(s, i) && req.process < |s.pipe.procs|
    ensures Exec(l, s, EnsureActions(s.cell, i, req) + rest) == Exec(l, u, rest)
    ensures var start := if s.cell.Some? then s.cell.value else Ledger(s);
      && u.threads == s.threads[i := Thread(req,
           if req.cost == 0 then Done(Unmetered)
           else if s.cell == Some(SENTINEL) then Done(Timeout)
           else Ensured(l, start))]
      && u.cell == (if req.cost == 0 || s.cell == Some(SENTINEL) then s.cell else Some(start))
      && u.pipe == s.pipe && u.spends == s.spends && u.returned == s.returned && u.notified == s.notified
  {
    ExecAppend(l, s, EnsureActions(s.cell, i, req), rest);
    EnsureRun(l, s, i, req);
    u := Exec(l, s, EnsureActions(s.cell, i, req));
  }

  /** A call that EnsureUsage has ended takes no further step. */
  lemma EndedRun(l: ServiceLimit, s: State, i: nat, notifies: bool)
    requires i < |s.threads| && s.threads[i].pc.Done?
    ensures Exec(l, s, SpendActions(i, notifies)) == s
  {
    assert SpendActions(i, notifies) == [Get(i)] + [Incr(i), Record(i), Finish(i, notifies)];
    ExecOne(l, s, Get(i), [Incr(i), Record(i), Finish(i, notifies)]);
    ExecOne(l, s, Incr(i), [Record(i), Finish(i, notifies)]);
    ExecOne(l, s, Record(i), [Finish(i, notifies)]);
    ExecOne(l, s, Finish(i, notifies), []);
  }

  /** A call that SpendUsage's peek sends away. */
  lemma StuckRun(l: ServiceLimit, s: State, i: nat, notifies: bool)
    requires i < |s.threads| && s.threads[i].pc.Checked? && s.cell == Some(SENTINEL)
    ensures Exec(l, s, SpendActions(i, notifies)) == Goto(s, i, Done(Failed))
  {
    assert SpendActions(i, notifies) == [Get(i)] + [Incr(i), Record(i), Finish(i, notifies)];
    ExecOne(l, s, Get(i), [Incr(i), Record(i), Finish(i, notifies)]);
    var t := Step(l, s, Get(i));
    ExecOne(l, t, Incr(i), [Record(i), Finish(i, notifies)]);
    ExecOne(l, t, Record(i), [Finish(i, notifies)]);
    ExecOne(l, t, Finish(i, notifies), []);
  }

  /** The history has grown by one increment. */
  predicate Grown(xs: seq<Spend>, ys: seq<Spend>, cost: int, total: int) {
    |ys| == |xs| + 1 && ys[..|xs|] == xs && ys[|xs|].cost == cost && ys[|xs|].total == total
  }

  /** From s to t, the call req of thread i has ended as r says. */
  ghost predicate EndsAs(l: ServiceLimit, s: State, t: State, i: nat, req: Request, r: Alone, notifies: bool) {
    && i < |t.threads| == |s.threads| && t.threads[i].pc == Done(r.outcome) && t.cell == r.cell
    && t.pipe == (if r.credit.Some? then P.Step(s.pipe, P.Record(req.process, req.entry, r.credit.value)) else s.pipe)
    && t.returned == s.returned + (if r.outcome.Spent? then req.cost else 0)
    && t.notified == s.notified + (if notifies then EventsOf(l, req.cost, r) else [])
    && (if r.credit.Some? then Grown(s.spends, t.spends, req.cost, r.total) else t.spends == s.spends)
  }

  /** The SpendUsage half of a call that EnsureUsage let through: it is always credited. */
  lemma SpendRun(l: ServiceLimit, s: State, i: nat, notifies: bool)
    requires i < |s.threads| && s.threads[i].pc.Checked?
    requires Live(s) && s.cell.value < l.overMax
    ensures var req := s.threads[i].req;
      EndsAs(l, s, Exec(l, s, SpendActions(i, notifies)), i, req, Charged(l, s.cell.value + req.cost, req.cost), notifies)
  {
    var u := IncrRun(l, s, i, RecordActions(i, notifies));
    RecordRun(l, s, u, i, notifies);
  }

  /** From the peek of SpendUsage to its increment. */
  lemma IncrRun(l: ServiceLimit, s: State, i: nat, rest: seq<Action>) returns (t: State)
    requires i < |s.threads| && s.threads[i].pc.Checked?
    requires Live(s) && s.cell.value < l.overMax
    ensures Exec(l, s, [Get(i), Incr(i)] + rest) == Exec(l, t, rest)
    ensures var total := s.cell.value + s.threads[i].req.cost;
      && t.threads == s.threads[i := s.threads[i].(pc := Incremented(total))]
      && t.cell == Some(total) && t.pipe == s.pipe && Grown(s.spends, t.spends, s.threads[i].req.cost, total)
      && t.returned == s.returned && t.notified == s.notified
  {
    ExecOne(l, s, Get(i), [Incr(i)] + rest);
    assert [Get(i)] + ([Incr(i)] + rest) == [Get(i), Incr(i)] + rest;
    assert Step(l, s, Get(i)) == Goto(s, i, Peeked);
    ExecOne(l, Step(l, s, Get(i)), Incr(i), rest);
    t := Step(l, Step(l, s, Get(i)), Incr(i));
  }

  /** From the increment, which led from s to u, to the return. */
  lemma RecordRun(l: ServiceLimit, s: State, u: State, i: nat, notifies: bool)
    requires i < |u.threads| == |s.threads| && u.threads[i].pc.Incremented? && u.cell == Some(u.threads[i].pc.total)
    requires u.pipe == s.pipe && Grown(s.spends, u.spends, u.threads[i].req.cost, u.threads[i].pc.total)
    requires u.returned == s.returned && u.notified == s.notified
    ensures var req := u.threads[i].req;
      EndsAs(l, s, Exec(l, u, RecordActions(i, notifies)), i, req, Charged(l, u.threads[i].pc.total, req.cost), notifies)
  {
    ExecOne(l, u, Record(i), [Finish(i, notifies)]);
    ExecOne(l, Step(l, u, Record(i)), Finish(i, notifies), []);
  }

  /** A call that runs without interference is a run of the protocol: the sequential function and
      the step machine agree on how it ends, the counter, the tracker and the accepted cost. */
  lemma AloneIsARun(l: ServiceLimit, s: State, i: nat, req: Request, notifies: bool)
    requires Free(s, i) && req.process < |s.pipe.procs|
    ensures EndsAs(l, s, Exec(l, s, AloneActions(s.cell, i, req, notifies)), i, req,
                   SpendAlone(l, s.cell, Ledger(s), req.cost), notifies)
  {
    var u := EnsureThen(l, s, i, req, SpendActions(i, notifies));
    EnsuredRun(l, s, u, i, req, notifies);
  }

  /** The rest of the call, from the state u that EnsureUsage has led to. */
  lemma EnsuredRun(l: ServiceLimit, s: State, u: State, i: nat, req: Request, notifies: bool)
    requires i < |s.threads|
    requires var start := if s.cell.Some? then s.cell.value else Ledger(s);
      && u.threads == s.threads[i := Thread(req,
           if req.cost == 0 then Done(Unmetered)
           else if s.cell == Some(SENTINEL) then Done(Timeout)
           else Ensured(l, start))]
      && u.cell == (if req.cost == 0 || s.cell == Some(SENTINEL) then s.cell else Some(start))
    requires u.pipe == s.pipe && u.spends == s.spends && u.returned == s.returned && u.notified == s.notified
    ensures EndsAs(l, s, Exec(l, u, SpendActions(i, notifies)), i, req, SpendAlone(l, s.cell, Ledger(s), req.cost), notifies)
  {
    if u.threads[i].pc.Done? {
      EndedRun(l, u, i, notifies);
    } else if u.cell == Some(SENTINEL) {
      StuckRun(l, u, i, notifies);
    } else {
      SpendRun(l, u, i, notifies);
    }
  }

  /** A state with nothing in it, for n goroutines of one process. */
  function Blank(n: nat): State {
    var idle := Thread(Request(0, Entry(Instant(0), Project(0)), 0), Idle);
    State(None, seq(n, _ => idle), P.Pipeline([P.Process(map[], map[], map[])], map[], map[], map[], map[]),
          0, 0, [], 0, [], 0, 0, [])
  }

  lemma FullSpend(l: ServiceLimit)
    requires Valid(l)
    ensures Credit(l, l.overMax, l.overMax) == l.overMax
  {
  }

  /** If a live counter disappears (its expiry, or ClearUsage) before the trackers have synced, the
      whole hard limit is accepted a second time, for every limit. */
  lemma EarlyExpiryOverspends(l: ServiceLimit)
    requires Valid(l)
    ensures var req := Request(0, Entry(Instant(0), Project(0)), l.overMax);
      var spend := AloneActions(None, 0, req, true);
      Init(Blank(1)) && Exec(l, Blank(1), spend + ([Drop] + spend)).returned == 2 * l.overMax
  {
    var req := Request(0, Entry(Instant(0), Project(0)), l.overMax);
    var spend := AloneActions(None, 0, req, true);
    ExecAppend(l, Blank(1), spend, [Drop] + spend);
    SpendsTheLimit(l, Blank(1), 0, req);
    var t := Exec(l, Blank(1), spend);
    ExecOne(l, t, Drop, spend);
    SpendsTheLimit(l, Step(l, t, Drop), 0, req);
  }

  /** Actions of thread i leave thread j where it is. */
  lemma {:induction false} OthersWait(l: ServiceLimit, s: State, i: nat, actions: seq<Action>, j: nat)
    requires j < |s.threads| && j != i
    requires forall a :: a in actions ==> OfThread(a) && a.i == i
    ensures |Exec(l, s, actions).threads| == |s.threads| && Exec(l, s, actions).threads[j] == s.threads[j]
    decreases |actions|
  {
    if actions != [] {
      StepMovesOneThread(l, s, actions[0]);
      OthersWait(l, Step(l, s, actions[0]), i, actions[1..], j);
    }
  }

  lemma AloneActionsAreOwn(cell: Option<int>, i: nat, req: Request, notifies: bool)
    ensures forall a :: a in AloneActions(cell, i, req, notifies) ==> OfThread(a) && a.i == i
  {
  }

  /** A client is elected and reads the ledger, and then its placeholder expires. */
  function StaleActions(req: Request): seq<Action> {
    [Begin(0, req), Get(0), SetNx(0), ReadLedger(0), Drop]
  }

  lemma StaleInitialiser(l: ServiceLimit, req: Request)
    requires req.process == 0 && req.cost != 0
    ensures var t := Exec(l, Blank(2), StaleActions(req));
      && |t.threads| == 2 && t.threads[0] == Thread(req, Fetched(0)) && t.threads[1].pc.Idle?
      && t.cell.None? && t.pipe == Blank(2).pipe && t.returned == 0
  {
    var s := Blank(2);
    ExecOne(l, s, Begin(0, req), [Get(0), SetNx(0), ReadLedger(0), Drop]);
    var s1 := Step(l, s, Begin(0, req));
    ExecOne(l, s1, Get(0), [SetNx(0), ReadLedger(0), Drop]);
    var s2 := Step(l, s1, Get(0));
    ExecOne(l, s2, SetNx(0), [ReadLedger(0), Drop]);
    var s3 := Step(l, s2, SetNx(0));
    ExecOne(l, s3, ReadLedger(0), [Drop]);
    var s4 := Step(l, s3, ReadLedger(0));
    ExecOne(l, s4, Drop, []);
  }

  /** The client goes on: it sets the counter and spends. */
  function LateActions(): seq<Action> {
    [SetUsage(0)] + SpendActions(0, true)
  }

  /** The stale client's SET and spend, whatever the counter has become meanwhile. */
  lemma StaleSpend(l: ServiceLimit, t: State, req: Request)
    requires Valid(l) && req.cost == l.overMax && req.process < |t.pipe.procs|
    requires |t.threads| > 0 && t.threads[0] == Thread(req, Fetched(0))
    ensures Exec(l, t, LateActions()).returned == t.returned + l.overMax
  {
    FullSpend(l);
    ExecOne(l, t, SetUsage(0), SpendActions(0, true));
    var u := Step(l, t, SetUsage(0));
    assert u.threads[0] == Thread(req, Checked) && u.cell == Some(0) && u.returned == t.returned;
    SpendRun(l, u, 0, true);
  }

  /** If the placeholder expires under its elected client, that client's SET replaces the live
      counter of the next one, and the hard limit is again accepted twice. */
  lemma LateInitialiserOverspends(l: ServiceLimit)
    requires Valid(l)
    ensures var req := Request(0, Entry(Instant(0), Project(0)), l.overMax);
      var actions := StaleActions(req) + (AloneActions(None, 1, req, true) + LateActions());
      Init(Blank(2)) && Exec(l, Blank(2), actions).returned == 2 * l.overMax
  {
    var req := Request(0, Entry(Instant(0), Project(0)), l.overMax);
    StaleInitialiser(l, req);
    SpendsTheLimit(l, Exec(l, Blank(2), StaleActions(req)), 1, req);
    AloneActionsAreOwn(None, 1, req, true);
    LateSpend(l, req, AloneActions(None, 1, req, true));
  }

  /** Whatever thread 1 does meanwhile, the stale client goes on and spends the limit. */
  lemma LateSpend(l: ServiceLimit, req: Request, other: seq<Action>)
    requires Valid(l) && req.cost == l.overMax && req.process == 0
    requires forall a :: a in other ==> OfThread(a) && a.i == 1
    requires |Exec(l, Exec(l, Blank(2), StaleActions(req)), other).pipe.procs| > 0
    ensures Exec(l, Blank(2), StaleActions(req) + (other + LateActions())).returned
      == Exec(l, Exec(l, Blank(2), StaleActions(req)), other).returned + l.overMax
  {
    var s := Exec(l, Blank(2), StaleActions(req));
    ExecAppend(l, Blank(2), StaleActions(req), other + LateActions());
    ExecAppend(l, s, other, LateActions());
    StaleInitialiser(l, req);
    OthersWait(l, s, 1, other, 0);
    StaleSpend(l, Exec(l, s, other), req);
  }

  /** A lone call for the whole limit on an absent counter and an empty ledger is accepted. */
  lemma SpendsTheLimit(l: ServiceLimit, s: State, i: nat, req: Request)
    requires Valid(l) && req.cost == l.overMax && req.process < |s.pipe.procs|
    requires Free(s, i) && s.cell.None? && s.pipe.ledger == map[]
    ensures var t := Exec(l, s, AloneActions(None, i, req, true));
      && |t.threads| == |s.threads| && Free(t, i) && |t.pipe.procs| == |s.pipe.procs|
      && t.pipe.ledger == map[] && t.returned == s.returned + l.overMax
  {
    FullSpend(l);
    AloneIsARun(l, s, i, req, true);
  }
}
