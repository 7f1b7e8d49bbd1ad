/** A call of the client among all others: its course is what a thread of the step machine does,
    whatever the other threads and the environment do between its steps. */
module SpendInterleaving {
  import opened Options
  import opened Limits
  import opened SpendProtocol
  import opened SpendBooks
  import opened SpendRuns
  import opened CallCourses
  import P = SyncPipeline

  /** The next command of thread i, working or not. */
  function CommandOf(i: nat, pc: Pc, fault: Fault): Action {
    if CanFail(pc) && !fault.Works? then Fail(i, fault.FailsApplied?)
    else
      match pc
      case EnsureMissed(_) => SetNx(i)
      case SpendMissed => SetNx(i)
      case Elected => ReadLedger(i)
      case Fetched(_) => SetUsage(i)
      case Peeked => Incr(i)
      case _ => Get(i)
  }

  /** s after n commands of thread i, before each of which the others have done env(k). */
  ghost function Interleaved(l: ServiceLimit, s: State, i: nat, env: nat -> seq<Action>, faults: nat -> Fault, n: nat): State {
    if n == 0 then s
    else
      var u := Exec(l, Interleaved(l, s, i, env, faults, n - 1), env(n - 1));
      if i < |u.threads| then Step(l, u, CommandOf(i, u.threads[i].pc, faults(n - 1))) else u
  }

  /** What thread i meets there. */
  ghost function TurnAt(l: ServiceLimit, s: State, i: nat, env: nat -> seq<Action>, faults: nat -> Fault, n: nat): Turn {
    var u := Exec(l, Interleaved(l, s, i, env, faults, n), env(n));
    Turn(Becomes(u.cell), Ledger(u), faults(n))
  }

  /** w says what thread i meets, from number start on. */
  ghost predicate Meets(l: ServiceLimit, s: State, i: nat, env: nat -> seq<Action>, faults: nat -> Fault,
                        w: World, start: nat) {
    forall n: nat :: w(start + n) == TurnAt(l, s, i, env, faults, n)
  }

  ghost predicate ByOthers(i: nat, env: nat -> seq<Action>) {
    forall n: nat, k :: 0 <= k < |env(n)| ==> !OfThread(env(n)[k]) || env(n)[k].i != i
  }

  /** One command is one step of the machine. */
  lemma CommandIsAStep(l: ServiceLimit, s: State, i: nat, fault: Fault, cell: Option<int>)
    requires i < |s.threads|
    ensures var t, s' := s.threads[i], Step(l, s, CommandOf(i, s.threads[i].pc, fault));
      var p := Advance(l, t.req.cost, Point(t.pc, cell), Turn(Becomes(s.cell), Ledger(s), fault));
      |s'.threads| == |s.threads| && s'.threads[i] == Thread(t.req, p.pc) && s'.cell == p.cell
  {
  }

  lemma {:induction false} OthersLeave(l: ServiceLimit, s: State, i: nat, actions: seq<Action>)
    requires i < |s.threads| && forall k :: 0 <= k < |actions| ==> !OfThread(actions[k]) || actions[k].i != i
    ensures |Exec(l, s, actions).threads| == |s.threads| && Exec(l, s, actions).threads[i] == s.threads[i]
    decreases |actions|
  {
    if actions != [] {
      StepMovesOneThread(l, s, actions[0]);
      OthersLeave(l, Step(l, s, actions[0]), i, actions[1..]);
    }
  }

  lemma IterateLast(l: ServiceLimit, cost: int, p: Point, w: World, start: nat, n: nat)
    requires n > 0
    ensures Iterate(l, cost, p, w, start, n)
      == Advance(l, cost, Iterate(l, cost, p, w, start, n - 1), w(start + n - 1))
  {
    var q, last := Iterate(l, cost, p, w, start, n - 1), start + n - 1;
    IterateOn(l, cost, p, w, start, n - 1, 1);
    assert Iterate(l, cost, q, w, last, 1) == Iterate(l, cost, Advance(l, cost, q, w(last)), w, last + 1, 0);
  }

  /** The thread is at this point. */
  predicate Stands(s: State, i: nat, req: Request, p: Point) {
    i < |s.threads| && s.threads[i] == Thread(req, p.pc) && s.cell == p.cell
  }

  lemma CommandFollows(l: ServiceLimit, u: State, v: State, i: nat, req: Request, p: Point, fault: Fault)
    requires Stands(u, i, req, p) && |v.threads| == |u.threads| && v.threads[i] == u.threads[i]
    ensures var q := Advance(l, req.cost, p, Turn(Becomes(v.cell), Ledger(v), fault));
      var t := Step(l, v, CommandOf(i, v.threads[i].pc, fault));
      Stands(t, i, req, q) && |t.threads| == |u.threads|
  {
    CommandIsAStep(l, v, i, fault, p.cell);
  }

  /** After n of its commands thread i is where n advances take it. */
  lemma {:induction false} ThreadFollows(l: ServiceLimit, s: State, i: nat, env: nat -> seq<Action>,
                                         faults: nat -> Fault, w: World, start: nat, n: nat)
    requires i < |s.threads| && ByOthers(i, env) && Meets(l, s, i, env, faults, w, start)
    ensures var t := Interleaved(l, s, i, env, faults, n);
      && Stands(t, i, s.threads[i].req, Iterate(l, s.threads[i].req.cost, Point(s.threads[i].pc, s.cell), w, start, n))
      && |t.threads| == |s.threads|
  {
    if n > 0 {
      var req, p0 := s.threads[i].req, Point(s.threads[i].pc, s.cell);
      var u := Interleaved(l, s, i, env, faults, n - 1);
      ThreadFollows(l, s, i, env, faults, w, start, n - 1);
      OthersLeave(l, u, i, env(n - 1));
      IterateLast(l, req.cost, p0, w, start, n);
      CommandFollows(l, u, Exec(l, u, env(n - 1)), i, req, Iterate(l, req.cost, p0, w, start, n - 1), faults(n - 1));
      assert w(start + (n - 1)) == TurnAt(l, s, i, env, faults, n - 1);
    }
  }

  /** The refinement: any call of SpendQuota, with others acting between its commands and any of
      them failing, is a run of the step machine. After the last command the thread has ended as the
      call has, or holds the call's credit; its last two steps record exactly that credit, and accept
      the cost and notify the event exactly if the call returns spent = true. */
  lemma CallIsARun(l: ServiceLimit, s: State, i: nat, env: nat -> seq<Action>, faults: nat -> Fault, w: World,
                   start: nat)
    returns (c: Call, t: State)
    requires i < |s.threads| && s.threads[i].pc == Pc.Ensuring(0)
    requires ByOthers(i, env) && Meets(l, s, i, env, faults, w, start)
    ensures c == CallCourse(l, s.cell, w, start, s.threads[i].req.cost) && start < c.clock
    ensures t == Interleaved(l, s, i, env, faults, c.clock - start)
    ensures |t.threads| == |s.threads| && Stands(t, i, s.threads[i].req, Point(LastPc(c), c.cell))
    ensures c.credit.None? ==> !c.outcome.Spent?
    ensures c.credit.Some? ==>
        forall notifies :: Settles(l, t, Exec(l, t, [Record(i), Finish(i, notifies)]), i, c, notifies)
  {
    c := CallOf(l, s.cell, w, start, s.threads[i].req.cost);
    t := CallReaches(l, s, i, env, faults, w, start, c.clock - start, Point(LastPc(c), c.cell));
    if c.credit.Some? {
      forall notifies ensures Settles(l, t, Exec(l, t, [Record(i), Finish(i, notifies)]), i, c, notifies) {
        CallSettles(l, t, i, c, notifies);
      }
    }
  }

  lemma CallReaches(l: ServiceLimit, s: State, i: nat, env: nat -> seq<Action>, faults: nat -> Fault, w: World,
                    start: nat, k: nat, p: Point)
    returns (t: State)
    requires i < |s.threads| && ByOthers(i, env) && Meets(l, s, i, env, faults, w, start)
    requires p == Iterate(l, s.threads[i].req.cost, Point(s.threads[i].pc, s.cell), w, start, k)
    ensures t == Interleaved(l, s, i, env, faults, k)
    ensures |t.threads| == |s.threads| && Stands(t, i, s.threads[i].req, p)
  {
    ThreadFollows(l, s, i, env, faults, w, start, k);
    t := Interleaved(l, s, i, env, faults, k);
  }

  lemma CallOf(l: ServiceLimit, cell: Option<int>, w: World, n: nat, cost: int) returns (c: Call)
    ensures c == CallCourse(l, cell, w, n, cost) && n < c.clock
    ensures Iterate(l, cost, Point(Pc.Ensuring(0), cell), w, n, c.clock - n) == Point(LastPc(c), c.cell)
    ensures c.credit.None? ==> !c.outcome.Spent?
    ensures c.credit.Some? ==> c.credit.value == Credit(l, cost, c.total)
    ensures c.credit.Some? ==> c.outcome == if c.credit.value < cost then Exceeded else Spent
  {
    c := CallCourse(l, cell, w, n, cost);
    CallSteps(l, cost, cell, w, n);
    CreditOfCall(l, cell, w, n, cost);
  }

  /** From t to u, thread i has recorded the credit of call c and returned as c says. */
  ghost predicate Settles(l: ServiceLimit, t: State, u: State, i: nat, c: Call, notifies: bool) {
    && i < |u.threads| == |t.threads| && c.credit.Some?
    && var req := t.threads[i].req;
    && u.cell == t.cell && u.threads[i] == Thread(req, Done(c.outcome))
    && u.pipe == P.Step(t.pipe, P.Record(req.process, req.entry, c.credit.value))
    && u.returned == t.returned + (if c.outcome.Spent? then req.cost else 0)
    && u.notified == t.notified + (if c.outcome.Spent? && notifies then Raised(l, req.cost, c.total) else [])
  }

  lemma CallSettles(l: ServiceLimit, t: State, i: nat, c: Call, notifies: bool)
    requires i < |t.threads| && t.threads[i].pc == Incremented(c.total)
    requires c.credit == Some(Credit(l, t.threads[i].req.cost, c.total))
    requires c.outcome == if c.credit.value < t.threads[i].req.cost then Exceeded else Spent
    ensures Settles(l, t, Exec(l, t, [Record(i), Finish(i, notifies)]), i, c, notifies)
  {
    ExecOne(l, t, Record(i), [Finish(i, notifies)]);
    ExecOne(l, Step(l, t, Record(i)), Finish(i, notifies), []);
  }

  /** The credit of a call is that of the total it brought the counter to. */
  lemma CreditOfCall(l: ServiceLimit, cell: Option<int>, w: World, n: nat, cost: int)
    ensures var c := CallCourse(l, cell, w, n, cost);
      c.credit.Some? ==>
        && c.credit.value == Credit(l, cost, c.total) && c.cell == Some(c.total)
        && c.outcome == (if c.credit.value < cost then Exceeded else Spent)
  {
  }
}
