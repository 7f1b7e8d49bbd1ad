/** What the spend protocol keeps in a calm environment: the counter disappears only when nothing
    depends on it, and the updater is honest. */
module SpendSafety {
  import opened Options
  import opened Limits
  import opened Amounts
  import opened SpendProtocol
  import opened SpendBooks
  import P = SyncPipeline

  predicate NoPeeked(s: State) {
    forall i :: 0 <= i < |s.threads| ==> !s.threads[i].pc.Peeked?
  }

  predicate NoElected(s: State) {
    forall i :: 0 <= i < |s.threads| ==> !s.threads[i].pc.Elected? && !s.threads[i].pc.Fetched?
  }

  /** When the key may disappear: a live counter once the ledger holds all usage and no call is
      between its peek and its increment; the placeholder once its elected client is through. */
  ghost predicate SafeToDrop(l: ServiceLimit, s: State) {
    && (Live(s) ==> NoPeeked(s) && Accounted(l, s) == Ledger(s))
    && (s.cell == Some(SENTINEL) ==> NoElected(s))
  }

  /** When the server may set the counter: to the ledger total, which holds all usage, and behind
      no elected client's back. */
  ghost predicate SafeToPrepare(l: ServiceLimit, s: State, usage: int) {
    usage == Ledger(s) == Accounted(l, s) && NoElected(s)
  }

  ghost predicate CalmStep(l: ServiceLimit, s: State, a: Action) {
    && (a.Drop? ==> SafeToDrop(l, s))
    && (a.Prepare? ==> SafeToPrepare(l, s, a.usage))
    && (a.Sync? ==> P.Honest(a.a))
  }

  /** The environment assumption on a whole run. */
  ghost predicate Calm(l: ServiceLimit, s: State, actions: seq<Action>)
    decreases |actions|
  {
    actions != [] ==> CalmStep(l, s, actions[0]) && Calm(l, Step(l, s, actions[0]), actions[1..])
  }

  /** The inductive invariant of calm runs that opened with this ledger total. */
  ghost predicate Steady(l: ServiceLimit, opening: int, s: State) {
    && s.pipe.doubled == map[]
    // One initialiser at a time, and only behind the placeholder.
    && (s.cell.Some? ==> s.cell.value >= SENTINEL)
    && Measure(l, Electing, s.threads) <= 1
    && (Measure(l, Electing, s.threads) > 0 ==> s.cell == Some(SENTINEL))
    && (forall i :: 0 <= i < |s.threads| && s.threads[i].pc.Fetched? ==> s.threads[i].pc.usage == Ledger(s))
    // Without a live counter, or with nothing left to spend, everything is in the ledger and nobody
    // is about to increment.
    && (!Live(s) || opening >= l.overMax ==> NoPeeked(s) && Accounted(l, s) == Ledger(s))
    // The capped counter is exactly the usage accounted for.
    && (if opening >= l.overMax
        then s.spends == [] && (Live(s) ==> s.cell.value == opening)
        else Accounted(l, s) <= l.overMax && (Live(s) ==> Accounted(l, s) == Min(s.cell.value, l.overMax)))
    && (forall k :: 0 <= k < |s.spends| ==> s.spends[k].undercount == 0)
  }

  ghost predicate Good(l: ServiceLimit, opening: int, s: State) {
    Valid(l) && Sound(s) && Books(l, opening, s) && Steady(l, opening, s)
  }

  lemma {:induction false} NothingMeasured(l: ServiceLimit, g: Gauge, ts: seq<Thread>)
    requires forall i :: 0 <= i < |ts| ==> Weigh(l, g, ts[i]) == 0
    ensures Measure(l, g, ts) == 0
  {
    if ts != [] {
      NothingMeasured(l, g, ts[1..]);
    }
  }

  /** A thread that is electing shows in the count, so the placeholder is there. */
  lemma ElectingIsCounted(l: ServiceLimit, opening: int, s: State, i: int)
    requires Good(l, opening, s) && -1 <= i < |s.threads|
    ensures Measure(l, Electing, s.threads) >= 0
    ensures i >= 0 && (s.threads[i].pc.Elected? || s.threads[i].pc.Fetched?) ==>
        s.cell == Some(SENTINEL) && Measure(l, Electing, s.threads) == 1
  {
    forall j | 0 <= j < |s.threads| && Running(s.threads[j].pc) ensures s.threads[j].req.cost > 0 {
      assert SoundThread(s, s.threads[j]);
    }
    MeasureCovers(l, Electing, s.threads, i);
  }

  /** The ledger never holds more than is accounted for. */
  lemma LedgerIsAccounted(l: ServiceLimit, s: State)
    requires Valid(l) && Sound(s) && s.pipe.doubled == map[]
    ensures 0 <= Ledger(s) <= Accounted(l, s)
  {
    TotalNonNegative(Everything, s.pipe.ledger);
    TotalNonNegative(Everything, s.pipe.lost);
    P.OnHandNonNegative(Everything, s.pipe.procs);
    forall j | 0 <= j < |s.threads| && Running(s.threads[j].pc) ensures s.threads[j].req.cost > 0 {
      assert SoundThread(s, s.threads[j]);
    }
    MeasureCovers(l, HeldCredit, s.threads, -1);
  }

  /** SETNX on an absent counter by thread i, with or without its reply. */
  ghost predicate Claims(s: State, s': State, i: nat) {
    && i < |s.threads| && |s'.threads| == |s.threads|
    && (s.threads[i].pc.EnsureMissed? || s.threads[i].pc.SpendMissed?)
    && s'.threads == s.threads[i := s'.threads[i]] && (s'.threads[i].pc.Elected? || s'.threads[i].pc.Done?)
    && s.cell.None? && s'.cell == Some(SENTINEL) && s'.spends == s.spends && s'.pipe == s.pipe
  }

  lemma ClaimKeepsSteady(l: ServiceLimit, opening: int, s: State, s': State, i: nat)
    requires Good(l, opening, s) && Books(l, opening, s') && Claims(s, s', i)
    ensures Steady(l, opening, s')
  {
    ElectingIsCounted(l, opening, s, -1);
    MeasureUpdate(l, Electing, s.threads, i, s'.threads[i]);
    assert forall j :: 0 <= j < |s.threads| && j != i ==> s'.threads[j] == s.threads[j];
  }

  /** SET by thread i, with or without its reply. */
  ghost predicate Sets(s: State, s': State, i: nat) {
    && i < |s.threads| && |s'.threads| == |s.threads|
    && s.threads[i].pc.Fetched?
    && s'.threads == s.threads[i := s'.threads[i]] && (s'.threads[i].pc.Checked? || s'.threads[i].pc.Done?)
    && s'.cell == Some(s.threads[i].pc.usage) && s'.spends == s.spends && s'.pipe == s.pipe
  }

  /** It replaces the placeholder, never a live counter, by everything accounted for. */
  lemma SetKeepsSteady(l: ServiceLimit, opening: int, s: State, s': State, i: nat)
    requires Good(l, opening, s) && Books(l, opening, s') && Sets(s, s', i)
    ensures s.cell == Some(SENTINEL) && Steady(l, opening, s')
  {
    ElectingIsCounted(l, opening, s, i);
    LedgerIsAccounted(l, s);
    MeasureUpdate(l, Electing, s.threads, i, s'.threads[i]);
    assert forall j :: 0 <= j < |s.threads| && j != i ==> s'.threads[j] == s.threads[j];
  }

  /** INCRBY, with or without its reply: only on a live counter, and with no undercount. */
  lemma IncrKeepsSteady(l: ServiceLimit, opening: int, s: State, s': State, i: nat)
    requires Good(l, opening, s) && Increments(l, s, s', i)
    ensures Live(s) && Steady(l, opening, s')
  {
    ElectingIsCounted(l, opening, s, i);
    assert SoundThread(s, s.threads[i]);
    IncrIsAccounted(l, s, s', i);
    var x := s'.spends[|s.spends|];
    CreditIsMetered(l, x.cost, x.total);
    MeasureUpdate(l, Electing, s.threads, i, s'.threads[i]);
    forall j | 0 <= j < |s.threads| && s'.threads[j].pc.Fetched? ensures false {
      ElectingIsCounted(l, opening, s, j);
    }
  }

  lemma DropKeepsSteady(l: ServiceLimit, opening: int, s: State)
    requires Good(l, opening, s) && SafeToDrop(l, s)
    ensures Steady(l, opening, Step(l, s, Drop))
  {
    ElectingIsCounted(l, opening, s, -1);
    if NoElected(s) {
      NothingMeasured(l, Electing, s.threads);
    }
  }

  lemma PrepareKeepsSteady(l: ServiceLimit, opening: int, s: State, usage: int)
    requires Good(l, opening, s) && SafeToPrepare(l, s, usage)
    ensures Steady(l, opening, Step(l, s, Prepare(usage)))
  {
    LedgerIsAccounted(l, s);
    NothingMeasured(l, Electing, s.threads);
  }

  lemma SyncKeepsSteady(l: ServiceLimit, opening: int, s: State, b: P.Action)
    requires Good(l, opening, s) && P.Honest(b)
    requires Sound(Step(l, s, Sync(b))) && Books(l, opening, Step(l, s, Sync(b)))
    ensures Steady(l, opening, Step(l, s, Sync(b)))
  {
    if !b.Record? {
      var s' := Step(l, s, Sync(b));
      P.StepKeepsSound(s.pipe, b);
      P.LedgerGrows(Everything, s.pipe, b);
      LedgerIsAccounted(l, s');
      assert !Live(s) || opening >= l.overMax ==> Ledger(s') == Ledger(s);
      forall j | 0 <= j < |s.threads| && s.threads[j].pc.Fetched? ensures s.threads[j].pc.usage == Ledger(s') {
        ElectingIsCounted(l, opening, s, j);
      }
    }
  }

  /** The actions that neither touch the counter nor the ledger. */
  predicate Local(a: Action, pc: Pc, cell: Option<int>) {
    match a
    case SetNx(_) => cell.Some?
    case SetUsage(_) => false
    case Incr(_) => false
    case Fail(_, applied) =>
      applied ==> !pc.Peeked? && !pc.Fetched? && ((pc.EnsureMissed? || pc.SpendMissed?) ==> cell.Some?)
    case Drop => false
    case Prepare(_) => false
    case Sync(_) => false
    case _ => true
  }

  /** What a local step leaves alone, and where its thread may go. */
  ghost predicate LocalChange(l: ServiceLimit, s: State, s': State, i: nat) {
    && i < |s.threads| && |s'.threads| == |s.threads|
    && var t := s'.threads[i];
    && s'.threads == s.threads[i := t]
    && s'.cell == s.cell && s'.spends == s.spends
    && Ledger(s') == Ledger(s) && s'.pipe.doubled == s.pipe.doubled
    && (t.pc.Peeked? ==> s.threads[i].pc.Peeked? || (Live(s) && s.cell.value < l.overMax))
    && (t.pc.Fetched? ==> s.threads[i] == t || t.pc.usage == Ledger(s))
    && Weigh(l, Electing, t) <= Weigh(l, Electing, s.threads[i])
  }

  lemma LocalMove(l: ServiceLimit, opening: int, s: State, s': State, i: nat)
    requires Good(l, opening, s) && Books(l, opening, s') && LocalChange(l, s, s', i)
    ensures Steady(l, opening, s')
  {
    MeasureUpdate(l, Electing, s.threads, i, s'.threads[i]);
    assert forall j :: 0 <= j < |s.threads| && j != i ==> s'.threads[j] == s.threads[j];
  }

  lemma LocalStep(l: ServiceLimit, s: State, a: Action)
    requires OfThread(a) && a.i < |s.threads| && Local(a, s.threads[a.i].pc, s.cell)
    ensures LocalChange(l, s, Step(l, s, a), a.i)
  {
  }

  lemma LocalStepKeepsSteady(l: ServiceLimit, opening: int, s: State, a: Action)
    requires Good(l, opening, s) && Books(l, opening, Step(l, s, a))
    requires OfThread(a) && a.i < |s.threads| && Local(a, s.threads[a.i].pc, s.cell)
    ensures Steady(l, opening, Step(l, s, a))
  {
    LocalStep(l, s, a);
    LocalMove(l, opening, s, Step(l, s, a), a.i);
  }

  lemma SharedStep(l: ServiceLimit, s: State, a: Action)
    requires a.SetNx? || a.SetUsage? || a.Incr? || (a.Fail? && a.applied)
    requires a.i < |s.threads| && !Local(a, s.threads[a.i].pc, s.cell)
    ensures var s' := Step(l, s, a);
      s' == s || Claims(s, s', a.i) || Sets(s, s', a.i) || Increments(l, s, s', a.i)
  {
  }

  lemma SharedStepKeepsSteady(l: ServiceLimit, opening: int, s: State, s': State, i: nat)
    requires Good(l, opening, s) && Books(l, opening, s')
    requires s' == s || Claims(s, s', i) || Sets(s, s', i) || Increments(l, s, s', i)
    ensures Steady(l, opening, s')
  {
    if Claims(s, s', i) {
      ClaimKeepsSteady(l, opening, s, s', i);
    } else if Sets(s, s', i) {
      SetKeepsSteady(l, opening, s, s', i);
    } else if Increments(l, s, s', i) {
      IncrKeepsSteady(l, opening, s, s', i);
    }
  }

  lemma StepKeepsSteady(l: ServiceLimit, opening: int, s: State, a: Action)
    requires Good(l, opening, s) && Charges(a) && CalmStep(l, s, a)
    ensures Good(l, opening, Step(l, s, a))
  {
    StepKeepsSound(l, s, a);
    StepKeepsBooks(l, opening, s, a);
    if a.Drop? {
      DropKeepsSteady(l, opening, s);
    } else if a.Prepare? {
      PrepareKeepsSteady(l, opening, s, a.usage);
    } else if a.Sync? {
      SyncKeepsSteady(l, opening, s, a.a);
    } else if a.i >= |s.threads| {
      assert Step(l, s, a) == s;
    } else if Local(a, s.threads[a.i].pc, s.cell) {
      LocalStepKeepsSteady(l, opening, s, a);
    } else {
      SharedStep(l, s, a);
      SharedStepKeepsSteady(l, opening, s, Step(l, s, a), a.i);
    }
  }

  lemma InitIsSteady(l: ServiceLimit, s: State)
    requires Valid(l) && Init(s)
    ensures Good(l, Ledger(s), s)
  {
    InitKeepsBooks(l, s);
  }

  lemma {:induction false} ExecKeepsSteady(l: ServiceLimit, opening: int, s: State, actions: seq<Action>)
    requires Good(l, opening, s) && AllCharge(actions) && Calm(l, s, actions)
    ensures Good(l, opening, Exec(l, s, actions))
    decreases |actions|
  {
    if actions != [] {
      StepKeepsSteady(l, opening, s, actions[0]);
      ExecKeepsSteady(l, opening, Step(l, s, actions[0]), actions[1..]);
    }
  }

  /** Every call costs at most c. */
  predicate CostsAtMost(c: int, actions: seq<Action>) {
    forall k :: 0 <= k < |actions| && actions[k].Begin? ==> actions[k].req.cost <= c
  }

  predicate RunningCostsAtMost(c: int, s: State) {
    forall i :: 0 <= i < |s.threads| && Running(s.threads[i].pc) ==> s.threads[i].req.cost <= c
  }

  /** All usage, and the counter once every call that has peeked increments it, are within the
      overshoot bound. */
  ghost predicate Bounded(l: ServiceLimit, opening: int, c: int, s: State) {
    && RunningCostsAtMost(c, s)
    && Accounted(l, s) <= Max(opening, l.overMax - 1 + |s.threads| * c)
    && (Live(s) ==> s.cell.value + Measure(l, PeekedCost, s.threads)
                    <= Max(opening, l.overMax - 1 + |s.threads| * c))
  }

  lemma {:induction false} PeekedCostsAtMost(l: ServiceLimit, c: int, ts: seq<Thread>)
    requires c >= 0 && forall i :: 0 <= i < |ts| && ts[i].pc.Peeked? ==> ts[i].req.cost <= c
    ensures Measure(l, PeekedCost, ts) <= |ts| * c
  {
    if ts != [] {
      PeekedCostsAtMost(l, c, ts[1..]);
      assert |ts| * c == c + |ts[1..]| * c;
    }
  }

  lemma StepKeepsRunningCosts(l: ServiceLimit, c: int, s: State, a: Action)
    requires RunningCostsAtMost(c, s) && (a.Begin? ==> a.req.cost <= c)
    ensures RunningCostsAtMost(c, Step(l, s, a))
  {
    StepMovesOneThread(l, s, a);
    var s' := Step(l, s, a);
    if OfThread(a) && a.i < |s.threads| && s' != s {
      StepKeepsRequest(l, s, a);
    }
    forall j | 0 <= j < |s'.threads| && Running(s'.threads[j].pc) ensures s'.threads[j].req.cost <= c {
      if !OfThread(a) || j != a.i || s' == s {
        assert s'.threads[j] == s.threads[j];
      }
    }
  }

  /** How a step can change the counter and which calls have peeked. */
  ghost predicate CounterMove(l: ServiceLimit, s: State, s': State, i: nat) {
    && i < |s.threads| && |s'.threads| == |s.threads|
    && s'.threads == s.threads[i := s'.threads[i]]
    && var t, t' := s.threads[i], s'.threads[i];
    && (t'.pc.Peeked? ==> s'.cell == s.cell && (t'.req == t.req || !t.pc.Peeked?))
    && (t'.pc.Peeked? && !t.pc.Peeked? ==> Live(s) && s.cell.value < l.overMax)
    && (s'.cell == s.cell
        || s'.cell == Some(SENTINEL)
        || (t.pc.Fetched? && s'.cell == Some(t.pc.usage) && !t'.pc.Peeked?)
        || (t.pc.Peeked? && !t'.pc.Peeked? && s'.cell == Some(Value(s.cell) + t.req.cost)))
  }

  lemma StepMovesCounter(l: ServiceLimit, s: State, a: Action)
    requires OfThread(a) && a.i < |s.threads|
    ensures CounterMove(l, s, Step(l, s, a), a.i)
  {
  }

  /** The reasons why the counter stays within the bound: nobody peeks at or above the limit, and a
      fresh counter starts from what is accounted for. */
  lemma CounterStaysBounded(l: ServiceLimit, bound: int, s: State, s': State, i: nat)
    requires Valid(l) && CounterMove(l, s, s', i) && Live(s')
    requires Live(s) ==> s.cell.value + Measure(l, PeekedCost, s.threads) <= bound
    requires !Live(s) ==> NoPeeked(s)
    requires s.threads[i].pc.Peeked? ==> s.threads[i].req.cost >= 0
    requires s.threads[i].pc.Fetched? ==> s.threads[i].pc.usage <= bound && !Live(s)
    requires Measure(l, PeekedCost, s'.threads) <= bound - (l.overMax - 1)
    ensures s'.cell.value + Measure(l, PeekedCost, s'.threads) <= bound
  {
    MeasureUpdate(l, PeekedCost, s.threads, i, s'.threads[i]);
    if s.threads[i].pc.Fetched? {
      NothingMeasured(l, PeekedCost, s.threads);
    }
  }

  lemma StepKeepsBounded(l: ServiceLimit, opening: int, c: int, s: State, a: Action)
    requires Good(l, opening, s) && Good(l, opening, Step(l, s, a))
    requires c > 0 && Bounded(l, opening, c, s) && (a.Begin? ==> a.req.cost <= c) && CalmStep(l, s, a)
    ensures Bounded(l, opening, c, Step(l, s, a))
  {
    StepKeepsRunningCosts(l, c, s, a);
    StepMovesOneThread(l, s, a);
    StepMovesBase(l, s, a);
    if OfThread(a) && a.i < |s.threads| {
      StepMovesCounter(l, s, a);
    }
    ChangeKeepsBounded(l, opening, c, s, Step(l, s, a), a);
  }

  /** The counter moves by a thread, by the server's SET, or away. */
  lemma ChangeKeepsBounded(l: ServiceLimit, opening: int, c: int, s: State, s': State, a: Action)
    requires Good(l, opening, s) && Good(l, opening, s') && c > 0 && Bounded(l, opening, c, s)
    requires RunningCostsAtMost(c, s') && |s'.threads| == |s.threads| && CounterStep(s, s')
    requires if OfThread(a) && a.i < |s.threads| then CounterMove(l, s, s', a.i)
             else s'.threads == s.threads && (s'.cell == s.cell || s'.cell.None?
                  || (s'.pipe == s.pipe && s'.cell == Some(Accounted(l, s))))
    ensures Bounded(l, opening, c, s')
  {
    var bound := Max(opening, l.overMax - 1 + |s.threads| * c);
    if OfThread(a) && a.i < |s.threads| {
      if Live(s') {
        PeekedCostsAtMost(l, c, s'.threads);
        AtLeastOneCost(|s.threads|, c);
        ThreadStepKeepsBounded(l, opening, |s.threads| * c, s, s', a.i);
      }
    } else if s'.cell != s.cell && s'.cell.Some? {
      PrepareKeepsBounded(l, opening, bound, s, s');
    }
    AccountedStaysBounded(l, opening, bound, s, s');
  }

  /** A SET to what is accounted for never raises a live counter. */
  lemma PrepareKeepsBounded(l: ServiceLimit, opening: int, bound: int, s: State, s': State)
    requires Good(l, opening, s) && Good(l, opening, s') && s'.threads == s.threads && s'.pipe == s.pipe
    requires Accounted(l, s) <= bound && s'.cell == Some(Accounted(l, s))
    requires Live(s) ==> s.cell.value + Measure(l, PeekedCost, s.threads) <= bound
    ensures s'.cell.value + Measure(l, PeekedCost, s'.threads) <= bound
  {
    if NoPeeked(s) {
      NothingMeasured(l, PeekedCost, s.threads);
    }
  }

  /** Usage grows by increments only, and is then at most the counter. */
  lemma AccountedStaysBounded(l: ServiceLimit, opening: int, bound: int, s: State, s': State)
    requires Good(l, opening, s) && Good(l, opening, s') && CounterStep(s, s')
    requires Accounted(l, s) <= bound && (Live(s') ==> s'.cell.value + Measure(l, PeekedCost, s'.threads) <= bound)
    ensures Accounted(l, s') <= bound
  {
    forall j | 0 <= j < |s'.threads| && Running(s'.threads[j].pc) ensures s'.threads[j].req.cost > 0 {
      assert SoundThread(s', s'.threads[j]);
    }
    MeasureCovers(l, PeekedCost, s'.threads, -1);
  }

  lemma AtLeastOneCost(n: nat, c: int)
    requires n >= 1 && c >= 1
    ensures n * c >= 1
  {
  }

  lemma ThreadStepKeepsBounded(l: ServiceLimit, opening: int, reach: int, s: State, s': State, i: nat)
    requires Good(l, opening, s) && CounterMove(l, s, s', i) && Live(s')
    requires reach >= 1 && Measure(l, PeekedCost, s'.threads) <= reach
    requires Live(s) ==>
        s.cell.value + Measure(l, PeekedCost, s.threads) <= Max(opening, l.overMax - 1 + reach)
    ensures s'.cell.value + Measure(l, PeekedCost, s'.threads) <= Max(opening, l.overMax - 1 + reach)
  {
    assert SoundThread(s, s.threads[i]);
    if s.threads[i].pc.Fetched? {
      ElectingIsCounted(l, opening, s, i);
      assert s.threads[i].pc.usage == Accounted(l, s);
    }
    CounterStaysBounded(l, Max(opening, l.overMax - 1 + reach), s, s', i);
  }

  lemma {:induction false} ExecKeepsBounded(l: ServiceLimit, opening: int, c: int, s: State, actions: seq<Action>)
    requires Good(l, opening, s) && AllCharge(actions) && Calm(l, s, actions)
    requires c > 0 && Bounded(l, opening, c, s) && CostsAtMost(c, actions)
    ensures Bounded(l, opening, c, Exec(l, s, actions)) && |Exec(l, s, actions).threads| == |s.threads|
    decreases |actions|
  {
    if actions != [] {
      StepKeepsSteady(l, opening, s, actions[0]);
      StepKeepsBounded(l, opening, c, s, actions[0]);
      StepMovesOneThread(l, s, actions[0]);
      ExecKeepsBounded(l, opening, c, Step(l, s, actions[0]), actions[1..]);
    }
  }
}
