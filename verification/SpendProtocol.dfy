/** The spend protocol of many request goroutines over one shared Redis counter, one counter per
    project, service and billing window. Every Redis command, ledger read and tracker update is
    one atomic step; steps of different goroutines interleave freely. */
module SpendProtocol {
  import opened Options
  import opened Limits
  import opened SpendHistory
  import opened Amounts
  import P = SyncPipeline

  /** What PeekUsage writes into an absent counter while one client initialises it. */
  const SENTINEL: int := -1

  /** EnsureUsage peeks this many times before it times out. */
  const ATTEMPTS: int := 3

  /** A call of SpendQuota: the client process that runs it, whom and when it bills, its cost. */
  datatype Request = Request(process: nat, entry: Entry, cost: int)

  datatype Outcome = Unmetered | Spent | Exceeded | Timeout | Failed

  /** Where a goroutine is: the next atomic step it takes. */
  datatype Pc =
    | Idle
    | Ensuring(attempt: nat)      // EnsureUsage: GET
    | EnsureMissed(attempt: nat)  // EnsureUsage: SETNX
    | Elected                     // EnsureUsage: read the ledger
    | Fetched(usage: int)         // EnsureUsage: SET
    | Checked                     // SpendUsage: GET
    | SpendMissed                 // SpendUsage: SETNX
    | Peeked                      // SpendUsage: INCRBY
    | Incremented(total: int)     // SpendQuota: record the credit in the tracker
    | Recorded(total: int)        // SpendQuota: notify and return
    | Done(outcome: Outcome)

  datatype Thread = Thread(req: Request, pc: Pc)

  /** `base` and `mark` remember the last initialisation of the counter: the value it started from
      and how many increments came before. `returned` is the total cost of the calls that returned
      spent = true. Of the increments whose reply was lost, `unbilled` is the credit and `unanswered`
      the cost of the fully credited ones; `unnotified` are the events that were never notified,
      because of a lost reply or a failed notification. */
  datatype State = State(
    cell: Option<int>,
    threads: seq<Thread>,
    pipe: P.Pipeline,
    base: int,
    mark: nat,
    spends: seq<Spend>,
    returned: int,
    notified: seq<EventType>,
    unbilled: int,
    unanswered: int,
    unnotified: seq<EventType>)

  datatype Action =
    | Begin(i: nat, req: Request)
    | Get(i: nat)
    | SetNx(i: nat)
    | ReadLedger(i: nat)
    | SetUsage(i: nat)
    | Incr(i: nat)
    | Record(i: nat)
    | Finish(i: nat, notifies: bool)
    | Fail(i: nat, applied: bool)  // the next call returns an error, whether or not it took effect
    | Drop                         // the key expires or is cleared
    | Prepare(usage: int)          // the server's PrepareUsage: SET to what it has read
    | Sync(a: P.Action)

  /** What a thread contributes to a sum over all threads. */
  datatype Gauge = HeldCredit | OwedCost | HeldEvent(e: EventType) | PeekedCost | Electing

  function SpendOf(l: ServiceLimit, t: Thread, total: int): SpendResult {
    GetSpendResult(l, t.req.cost, total)
  }

  function Weigh(l: ServiceLimit, g: Gauge, t: Thread): int {
    match g
    case HeldCredit =>
      if t.pc.Incremented? then SpendOf(l, t, t.pc.total).credit else 0
    case OwedCost =>
      if t.pc.Incremented? || t.pc.Recorded? then Owed(l, t.req.cost, t.pc.total) else 0
    case HeldEvent(e) =>
      if (t.pc.Incremented? || t.pc.Recorded?) && Announced(l, t.req.cost, t.pc.total) == [e] then 1 else 0
    case PeekedCost => if t.pc.Peeked? then t.req.cost else 0
    case Electing => if t.pc.Elected? || t.pc.Fetched? then 1 else 0
  }

  function Measure(l: ServiceLimit, g: Gauge, ts: seq<Thread>): int {
    if ts == [] then 0 else Weigh(l, g, ts[0]) + Measure(l, g, ts[1..])
  }

  function Value(cell: Option<int>): int {
    if cell.Some? then cell.value else 0
  }

  predicate Live(s: State) {
    s.cell.Some? && s.cell.value != SENTINEL
  }

  ghost function Ledger(s: State): int {
    Total(Everything, s.pipe.ledger)
  }

  /** All the usage of the project, wherever it is: in the ledger, in a tracker or a running sync,
      on its way from the counter to a tracker, or lost. */
  ghost function Accounted(l: ServiceLimit, s: State): int {
    P.Traced(Everything, s.pipe) + Measure(l, HeldCredit, s.threads) + s.unbilled
  }

  function Goto(s: State, i: nat, pc: Pc): State
    requires i < |s.threads|
  {
    s.(threads := s.threads[i := s.threads[i].(pc := pc)])
  }

  function Retry(attempt: nat): Pc {
    if attempt + 1 < ATTEMPTS then Ensuring(attempt + 1) else Done(Timeout)
  }

  /** SpendQuota after EnsureUsage returned total. */
  function Ensured(l: ServiceLimit, total: int): Pc {
    if total >= l.overMax then Done(Exceeded) else Checked
  }

  /** GET of EnsureUsage's or SpendUsage's peek. */
  function AfterGet(l: ServiceLimit, cell: Option<int>, pc: Pc): Pc
    requires pc.Ensuring? || pc.Checked?
  {
    if pc.Ensuring? then
      if cell.None? then EnsureMissed(pc.attempt)
      else if cell.value == SENTINEL then Retry(pc.attempt)
      else Ensured(l, cell.value)
    else
      if cell.None? then SpendMissed
      else if cell.value == SENTINEL then Done(Failed)
      else if cell.value >= l.overMax then Done(Exceeded)
      else Peeked
  }

  /** SETNX of a peek that found nothing; SpendUsage treats an election as an error. */
  function AfterSetNx(cell: Option<int>, pc: Pc): Pc
    requires pc.EnsureMissed? || pc.SpendMissed?
  {
    if pc.SpendMissed? then Done(Failed)
    else if cell.None? then Elected
    else Retry(pc.attempt)
  }

  /** What the next Redis write of a thread does to the shared state. */
  ghost function Write(l: ServiceLimit, s: State, t: Thread): State {
    match t.pc
    case EnsureMissed(_) => Claim(s)
    case SpendMissed => Claim(s)
    case Fetched(usage) => s.(cell := Some(usage), base := usage, mark := |s.spends|)
    case Peeked =>
      var total := Value(s.cell) + t.req.cost;
      var undercount := Accounted(l, s) - Min(Value(s.cell), l.overMax);
      s.(cell := Some(total), spends := s.spends + [Spend(t.req.cost, total, undercount)],
         base := if s.cell.None? then 0 else s.base,
         mark := if s.cell.None? then |s.spends| else s.mark)
    case _ => s
  }

  function Claim(s: State): State {
    if s.cell.None? then s.(cell := Some(SENTINEL), base := SENTINEL, mark := |s.spends|) else s
  }

  predicate CanFail(pc: Pc) {
    pc.Ensuring? || pc.EnsureMissed? || pc.Elected? || pc.Fetched? || pc.Checked? || pc.SpendMissed? || pc.Peeked?
  }

  /** The actions of the threads; the others are the environment's. */
  predicate OfThread(a: Action) {
    !a.Drop? && !a.Prepare? && !a.Sync?
  }

  /** The step of a thread; an action that is not its next step changes nothing. */
  ghost function ThreadStep(l: ServiceLimit, s: State, a: Action): State
    requires OfThread(a) && a.i < |s.threads|
  {
    var t := s.threads[a.i];
    match a
    case Begin(i, req) =>
      if !(t.pc.Idle? || t.pc.Done?) || req.process >= |s.pipe.procs| then s
      else s.(threads := s.threads[i := Thread(req, if req.cost == 0 then Done(Unmetered) else Ensuring(0))])
    case Get(i) =>
      if !(t.pc.Ensuring? || t.pc.Checked?) then s else Goto(s, i, AfterGet(l, s.cell, t.pc))
    case SetNx(i) =>
      if !(t.pc.EnsureMissed? || t.pc.SpendMissed?) then s
      else Goto(Write(l, s, t), i, AfterSetNx(s.cell, t.pc))
    case ReadLedger(i) =>
      if !t.pc.Elected? then s else Goto(s, i, Fetched(Ledger(s)))
    case SetUsage(i) =>
      if !t.pc.Fetched? then s else Goto(Write(l, s, t), i, Ensured(l, t.pc.usage))
    case Incr(i) =>
      if !t.pc.Peeked? then s else Goto(Write(l, s, t), i, Incremented(Value(s.cell) + t.req.cost))
    case Record(i) =>
      if !t.pc.Incremented? then s
      else
        var credit := SpendOf(l, t, t.pc.total).credit;
        Goto(s, i, Recorded(t.pc.total))
          .(pipe := P.Step(s.pipe, P.Record(t.req.process, t.req.entry, credit)))
    case Finish(i, notifies) =>
      if !t.pc.Recorded? then s
      else
        var r := SpendOf(l, t, t.pc.total);
        if r.credit < t.req.cost then Goto(s, i, Done(Exceeded))
        else
          var event := if r.event.Some? then [r.event.value] else [];
          Goto(s, i, Done(Spent))
            .(returned := s.returned + t.req.cost,
              notified := if notifies then s.notified + event else s.notified,
              unnotified := if notifies then s.unnotified else s.unnotified + event)
    case Fail(i, applied) =>
      if !CanFail(t.pc) then s
      else if !applied then Goto(s, i, Done(Failed))
      else
        var failed := Goto(Write(l, s, t), i, Done(Failed));
        if !t.pc.Peeked? then failed
        else
          var total := Value(s.cell) + t.req.cost;
          failed.(unbilled := s.unbilled + Credit(l, t.req.cost, total),
                  unanswered := s.unanswered + Owed(l, t.req.cost, total),
                  unnotified := s.unnotified + Announced(l, t.req.cost, total))
  }

  ghost function Step(l: ServiceLimit, s: State, a: Action): State {
    match a
    case Drop => s.(cell := None)
    case Prepare(usage) => s.(cell := Some(usage), base := usage, mark := |s.spends|)
    case Sync(b) => if b.Record? then s else s.(pipe := P.Step(s.pipe, b))
    case _ => if a.i < |s.threads| then ThreadStep(l, s, a) else s
  }

  ghost function Exec(l: ServiceLimit, s: State, actions: seq<Action>): State
    decreases |actions|
  {
    if actions == [] then s else Exec(l, Step(l, s, actions[0]), actions[1..])
  }

  /** Nothing is pending, no call is running and the counter is absent. */
  ghost predicate Init(s: State) {
    && s.cell.None?
    && (forall i :: 0 <= i < |s.threads| ==> s.threads[i].pc.Idle?)
    && P.Fresh(s.pipe)
    && s.mark == s.returned == s.unbilled == s.unanswered == 0
    && s.spends == [] && s.notified == s.unnotified == []
  }

  /** Costs are not negative. (SpendQuota ignores a zero cost.) */
  predicate Charges(a: Action) {
    a.Begin? ==> a.req.cost >= 0
  }

  predicate AllCharge(actions: seq<Action>) {
    forall k :: 0 <= k < |actions| ==> Charges(actions[k])
  }
}
