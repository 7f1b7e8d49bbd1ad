/** One call of the client, command by command, while others change the counter before any of its
    commands and any command may fail: the course it takes is that of a thread of the step machine. */
module CallCourses {
  import opened Options
  import opened Limits
  import opened SpendProtocol
  import opened SpendRuns

  /** A command works, or fails without effect, or takes effect and yet is reported as failed. */
  datatype Fault = Works | Fails | FailsApplied

  /** What others have done to the counter since this client's last command. */
  datatype Meanwhile = Untouched | Becomes(cell: Option<int>)

  /** What one command meets; `ledger` is what the ledger answers if the command is its read. */
  datatype Turn = Turn(others: Meanwhile, ledger: int, fault: Fault)

  /** What each command of a client meets, by the number of the command. */
  type World = nat -> Turn

  function Found(cell: Option<int>, t: Turn): Option<int> {
    if t.others.Becomes? then t.others.cell else cell
  }

  /** What PeekUsage returns: the usage, errCacheWait, errCacheReady, or another error. */
  datatype Peek = Usage(value: int) | Wait | Ready | Broken

  /** How a part of a call ends: the number of the next command, and the counter it leaves. */
  datatype Peeking = Peeking(peek: Peek, clock: nat, cell: Option<int>)
  datatype Checking = Checking(usage: Option<int>, timedOut: bool, clock: nat, cell: Option<int>)
  datatype Call = Call(outcome: Outcome, total: int, credit: Option<int>, clock: nat, cell: Option<int>)

  /** GET and, on an absent counter, SETNX. */
  function PeekCourse(cell: Option<int>, w: World, n: nat): Peeking {
    var found := Found(cell, w(n));
    if !w(n).fault.Works? then Peeking(Broken, n + 1, found)
    else if found == Some(SENTINEL) then Peeking(Wait, n + 1, found)
    else if found.Some? then Peeking(Usage(found.value), n + 1, found)
    else
      var again := Found(found, w(n + 1));
      var left := if again.None? && !w(n + 1).fault.Fails? then Some(SENTINEL) else again;
      Peeking(if !w(n + 1).fault.Works? then Broken else if again.Some? then Wait else Ready, n + 2, left)
  }

  /** Peeks until one does not wait; the elected client reads the ledger and sets the counter. */
  function EnsureCourse(cell: Option<int>, w: World, n: nat, attempt: nat): Checking
    decreases ATTEMPTS - attempt
  {
    if attempt >= ATTEMPTS then Checking(None, true, n, cell)
    else
      var p := PeekCourse(cell, w, n);
      match p.peek
      case Broken => Checking(None, false, p.clock, p.cell)
      case Wait => EnsureCourse(p.cell, w, p.clock, attempt + 1)
      case Usage(v) => Checking(Some(v), false, p.clock, p.cell)
      case Ready =>
        var read := w(p.clock);
        var found := Found(p.cell, read);
        if !read.fault.Works? then Checking(None, false, p.clock + 1, found)
        else
          var write := w(p.clock + 1);
          Checking(if write.fault.Works? then Some(read.ledger) else None, false, p.clock + 2,
                   if write.fault.Fails? then Found(found, write) else Some(read.ledger))
  }

  lemma EnsureUnfolds(cell: Option<int>, w: World, n: nat, attempt: nat)
    requires attempt < ATTEMPTS
    ensures var p, e := PeekCourse(cell, w, n), EnsureCourse(cell, w, n, attempt);
      var read, write := w(p.clock), w(p.clock + 1);
      && (p.peek.Broken? ==> e == Checking(None, false, p.clock, p.cell))
      && (p.peek.Wait? ==> e == EnsureCourse(p.cell, w, p.clock, attempt + 1))
      && (p.peek.Usage? ==> e == Checking(Some(p.peek.value), false, p.clock, p.cell))
      && (p.peek.Ready? && !read.fault.Works? ==> e == Checking(None, false, p.clock + 1, Found(p.cell, read)))
      && (p.peek.Ready? && read.fault.Works? ==>
            e == Checking(if write.fault.Works? then Some(read.ledger) else None, false, p.clock + 2,
                          if write.fault.Fails? then Found(Found(p.cell, read), write) else Some(read.ledger)))
  {
  }

  /** SpendUsage after EnsureUsage let the call through: the peek, then INCRBY. */
  function SpendCourse(l: ServiceLimit, cell: Option<int>, w: World, n: nat, cost: int): Call {
    var p := PeekCourse(cell, w, n);
    if !p.peek.Usage? then Call(Failed, 0, None, p.clock, p.cell)
    else if p.peek.value >= l.overMax then Call(Exceeded, 0, None, p.clock, p.cell)
    else
      var incr := w(p.clock);
      var found := Found(p.cell, incr);
      var total := Value(found) + cost;
      if incr.fault.Fails? then Call(Failed, 0, None, p.clock + 1, found)
      else if incr.fault.FailsApplied? then Call(Failed, 0, None, p.clock + 1, Some(total))
      else
        var credit := Credit(l, cost, total);
        Call(if credit < cost then Exceeded else Spent, total, Some(credit), p.clock + 1, Some(total))
  }

  /** A call of SpendQuota up to its increment. */
  function CallCourse(l: ServiceLimit, cell: Option<int>, w: World, n: nat, cost: int): Call {
    AfterEnsure(l, EnsureCourse(cell, w, n, 0), w, cost)
  }

  function AfterEnsure(l: ServiceLimit, e: Checking, w: World, cost: int): Call {
    if e.usage.None? then Call(if e.timedOut then Timeout else Failed, 0, None, e.clock, e.cell)
    else if e.usage.value >= l.overMax then Call(Exceeded, e.usage.value, None, e.clock, e.cell)
    else SpendCourse(l, e.cell, w, e.clock, cost)
  }

  /** Where a thread is, and the counter. */
  datatype Point = Point(pc: Pc, cell: Option<int>)

  /** The machine's step of a thread that finds the counter so. */
  function Next(l: ServiceLimit, cost: int, pc: Pc, found: Option<int>, ledger: int): Pc {
    match pc
    case Ensuring(_) => AfterGet(l, found, pc)
    case Checked => AfterGet(l, found, pc)
    case EnsureMissed(_) => AfterSetNx(found, pc)
    case SpendMissed => AfterSetNx(found, pc)
    case Elected => Fetched(ledger)
    case Fetched(usage) => Ensured(l, usage)
    case Peeked => Incremented(Value(found) + cost)
    case _ => pc
  }

  function Left(cost: int, pc: Pc, found: Option<int>): Option<int> {
    match pc
    case EnsureMissed(_) => if found.None? then Some(SENTINEL) else found
    case SpendMissed => if found.None? then Some(SENTINEL) else found
    case Fetched(usage) => Some(usage)
    case Peeked => Some(Value(found) + cost)
    case _ => found
  }

  function Advance(l: ServiceLimit, cost: int, p: Point, t: Turn): Point {
    var found := Found(p.cell, t);
    Point(if t.fault.Works? || !CanFail(p.pc) then Next(l, cost, p.pc, found, t.ledger) else Done(Failed),
          if t.fault.Fails? then found else Left(cost, p.pc, found))
  }

  function Iterate(l: ServiceLimit, cost: int, p: Point, w: World, n: nat, k: nat): Point
    decreases k
  {
    if k == 0 then p else Iterate(l, cost, Advance(l, cost, p, w(n)), w, n + 1, k - 1)
  }

  lemma {:induction false} IterateOn(l: ServiceLimit, cost: int, p: Point, w: World, n: nat, j: nat, k: nat)
    ensures Iterate(l, cost, p, w, n, j + k) == Iterate(l, cost, Iterate(l, cost, p, w, n, j), w, n + j, k)
    decreases j
  {
    if j > 0 {
      IterateOn(l, cost, Advance(l, cost, p, w(n)), w, n + 1, j - 1, k);
    }
  }

  lemma IterateTo(l: ServiceLimit, cost: int, p: Point, q: Point, r: Point, w: World, n: nat, mid: nat, end: nat)
    requires n <= mid <= end
    requires Iterate(l, cost, p, w, n, mid - n) == q && Iterate(l, cost, q, w, mid, end - mid) == r
    ensures Iterate(l, cost, p, w, n, end - n) == r
  {
    IterateOn(l, cost, p, w, n, mid - n, end - mid);
  }

  /** Where a peek takes a thread. */
  function AfterPeek(l: ServiceLimit, pc: Pc, peek: Peek): Pc
    requires pc.Ensuring? || pc.Checked?
  {
    match peek
    case Broken => Done(Failed)
    case Wait => if pc.Ensuring? then Retry(pc.attempt) else Done(Failed)
    case Ready => if pc.Ensuring? then Elected else Done(Failed)
    case Usage(v) => if pc.Ensuring? then Ensured(l, v) else if v >= l.overMax then Done(Exceeded) else Peeked
  }

  lemma PeekSteps(l: ServiceLimit, cost: int, pc: Pc, cell: Option<int>, w: World, n: nat)
    requires pc.Ensuring? || pc.Checked?
    ensures var p := PeekCourse(cell, w, n);
      n < p.clock <= n + 2 && Iterate(l, cost, Point(pc, cell), w, n, p.clock - n) == Point(AfterPeek(l, pc, p.peek), p.cell)
  {
    var p1 := Advance(l, cost, Point(pc, cell), w(n));
    assert Iterate(l, cost, Point(pc, cell), w, n, 1) == Iterate(l, cost, p1, w, n + 1, 0) == p1;
    if w(n).fault.Works? && Found(cell, w(n)).None? {
      var p2 := Advance(l, cost, p1, w(n + 1));
      assert Iterate(l, cost, p1, w, n + 1, 1) == Iterate(l, cost, p2, w, n + 2, 0) == p2;
    }
  }

  /** EnsureUsage's loop is the machine's retry. */
  lemma {:induction false} EnsureSteps(l: ServiceLimit, cost: int, cell: Option<int>, w: World, n: nat, attempt: nat)
    requires attempt < ATTEMPTS
    ensures var e := EnsureCourse(cell, w, n, attempt);
      n < e.clock && Iterate(l, cost, Point(Pc.Ensuring(attempt), cell), w, n, e.clock - n) == EnsuredAt(l, e)
    decreases ATTEMPTS - attempt
  {
    var p, e := PeekCourse(cell, w, n), EnsureCourse(cell, w, n, attempt);
    PeekSteps(l, cost, Pc.Ensuring(attempt), cell, w, n);
    var first, mid := Point(Pc.Ensuring(attempt), cell), Point(AfterPeek(l, Pc.Ensuring(attempt), p.peek), p.cell);
    if p.peek.Wait? && attempt + 1 < ATTEMPTS {
      EnsureSteps(l, cost, p.cell, w, p.clock, attempt + 1);
      IterateTo(l, cost, first, mid, EnsuredAt(l, e), w, n, p.clock, e.clock);
    } else if p.peek.Ready? {
      ElectedSteps(l, cost, p.cell, w, p.clock);
      IterateTo(l, cost, first, mid, EnsuredAt(l, e), w, n, p.clock, e.clock);
    }
  }

  /** Where a thread is when EnsureUsage returns. */
  function EnsuredAt(l: ServiceLimit, e: Checking): Point {
    Point(if e.usage.Some? then Ensured(l, e.usage.value) else Done(if e.timedOut then Timeout else Failed), e.cell)
  }

  /** The elected client: the ledger read and the SET. */
  lemma ElectedSteps(l: ServiceLimit, cost: int, cell: Option<int>, w: World, n: nat)
    ensures var found := Found(cell, w(n));
      var last := Point(if w(n + 1).fault.Works? then Ensured(l, w(n).ledger) else Done(Failed),
                       if w(n + 1).fault.Fails? then Found(found, w(n + 1)) else Some(w(n).ledger));
      if w(n).fault.Works? then Iterate(l, cost, Point(Elected, cell), w, n, 2) == last
      else Iterate(l, cost, Point(Elected, cell), w, n, 1) == Point(Done(Failed), found)
  {
    var p1 := Advance(l, cost, Point(Elected, cell), w(n));
    assert Iterate(l, cost, Point(Elected, cell), w, n, 1) == Iterate(l, cost, p1, w, n + 1, 0) == p1;
    if w(n).fault.Works? {
      var p2 := Advance(l, cost, p1, w(n + 1));
      assert Iterate(l, cost, p1, w, n + 1, 1) == Iterate(l, cost, p2, w, n + 2, 0) == p2;
    }
  }

  /** Where a call is after its last command: it has ended, or it holds its credit. */
  function LastPc(c: Call): Pc {
    if c.credit.Some? then Incremented(c.total) else Done(c.outcome)
  }

  lemma SpendSteps(l: ServiceLimit, cost: int, cell: Option<int>, w: World, n: nat)
    ensures var c := SpendCourse(l, cell, w, n, cost);
      n < c.clock && Iterate(l, cost, Point(Checked, cell), w, n, c.clock - n) == Point(LastPc(c), c.cell)
  {
    var p, c := PeekCourse(cell, w, n), SpendCourse(l, cell, w, n, cost);
    PeekSteps(l, cost, Checked, cell, w, n);
    if p.peek.Usage? && p.peek.value < l.overMax {
      var p1 := Advance(l, cost, Point(Peeked, p.cell), w(p.clock));
      assert Iterate(l, cost, Point(Peeked, p.cell), w, p.clock, 1) == Iterate(l, cost, p1, w, p.clock + 1, 0) == p1;
      IterateTo(l, cost, Point(Checked, cell), Point(Peeked, p.cell), p1, w, n, p.clock, p.clock + 1);
    }
  }

  /** The course of a call is that of the machine's steps of a thread, from its first command on. */
  lemma CallSteps(l: ServiceLimit, cost: int, cell: Option<int>, w: World, n: nat)
    ensures var c := CallCourse(l, cell, w, n, cost);
      && n < c.clock
      && Iterate(l, cost, Point(Pc.Ensuring(0), cell), w, n, c.clock - n) == Point(LastPc(c), c.cell)
  {
    EnsureSteps(l, cost, cell, w, n, 0);
    StepsAfterEnsure(l, cost, Point(Pc.Ensuring(0), cell), EnsureCourse(cell, w, n, 0), w, n);
  }

  lemma StepsAfterEnsure(l: ServiceLimit, cost: int, first: Point, e: Checking, w: World, n: nat)
    requires n < e.clock && Iterate(l, cost, first, w, n, e.clock - n) == EnsuredAt(l, e)
    ensures var c := AfterEnsure(l, e, w, cost);
      n < c.clock && Iterate(l, cost, first, w, n, c.clock - n) == Point(LastPc(c), c.cell)
  {
    if e.usage.Some? && e.usage.value < l.overMax {
      var c := SpendCourse(l, e.cell, w, e.clock, cost);
      SpendSteps(l, cost, e.cell, w, e.clock);
      IterateTo(l, cost, first, Point(Checked, e.cell), Point(LastPc(c), c.cell), w, n, e.clock, c.clock);
    }
  }

  /** A peek waits exactly when GET finds the placeholder, or finds nothing and SETNX then does. */
  lemma WaitsExactlyWhen(cell: Option<int>, w: World, n: nat)
    ensures PeekCourse(cell, w, n).peek.Wait? <==>
      w(n).fault.Works?
      && (Found(cell, w(n)) == Some(-1)
          || (Found(cell, w(n)).None? && w(n + 1).fault.Works? && Found(None, w(n + 1)).Some?))
  {
  }

  /** EnsureUsage times out exactly when three peeks in a row wait. */
  lemma TimesOutExactlyWhen(cell: Option<int>, w: World, n: nat)
    ensures EnsureCourse(cell, w, n, 0).timedOut <==>
      var p := PeekCourse(cell, w, n);
      var q := PeekCourse(p.cell, w, p.clock);
      p.peek.Wait? && q.peek.Wait? && PeekCourse(q.cell, w, q.clock).peek.Wait?
  {
    var p := PeekCourse(cell, w, n);
    var q := PeekCourse(p.cell, w, p.clock);
    var r := PeekCourse(q.cell, w, q.clock);
    assert EnsureCourse(r.cell, w, r.clock, 3).timedOut;
    assert EnsureCourse(q.cell, w, q.clock, 2).timedOut <==> r.peek.Wait?;
    assert EnsureCourse(p.cell, w, p.clock, 1).timedOut <==> q.peek.Wait? && r.peek.Wait?;
  }

  /** What EnsureUsage returns is what the counter then holds, and it always ends soon: a time-out
      takes one or two commands for each attempt that is left, any end at most two more. */
  lemma {:induction false} EnsureReturnsTheCounter(cell: Option<int>, w: World, n: nat, attempt: nat)
    requires attempt <= ATTEMPTS
    ensures var e := EnsureCourse(cell, w, n, attempt);
      && (e.usage.Some? ==> e.usage == e.cell)
      && (e.timedOut ==> e.usage.None? && n + (ATTEMPTS - attempt) <= e.clock <= n + 2 * (ATTEMPTS - attempt))
      && n <= e.clock <= n + 2 * (ATTEMPTS - attempt) + 2
    decreases ATTEMPTS - attempt
  {
    if attempt < ATTEMPTS {
      EnsureUnfolds(cell, w, n, attempt);
      var p := PeekCourse(cell, w, n);
      EnsureReturnsTheCounter(p.cell, w, p.clock, attempt + 1);
    }
  }

  /** Nobody else acts on the counter, and nothing fails. */
  ghost predicate Quiet(w: World, ledger: int) {
    forall n :: w(n) == Turn(Untouched, ledger, Works)
  }

  lemma QuietEnsure(cell: Option<int>, w: World, n: nat, ledger: int)
    requires Quiet(w, ledger)
    ensures var e := EnsureCourse(cell, w, n, 0);
      if cell == Some(SENTINEL) then e.usage.None? && e.timedOut && e.cell == cell
      else e.usage == e.cell == Some(if cell.Some? then cell.value else ledger)
  {
    TimesOutExactlyWhen(cell, w, n);
  }

  /** A call that meets nobody and no failure is the lone call of the step machine. */
  lemma QuietCallIsAlone(l: ServiceLimit, cell: Option<int>, w: World, n: nat, ledger: int, cost: int)
    requires Quiet(w, ledger) && cost != 0
    ensures var c, r := CallCourse(l, cell, w, n, cost), SpendAlone(l, cell, ledger, cost);
      c.outcome == r.outcome && c.total == r.total && c.credit == r.credit && c.cell == r.cell
  {
    QuietEnsure(cell, w, n, ledger);
  }
}
