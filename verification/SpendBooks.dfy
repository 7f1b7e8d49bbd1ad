/** What every interleaving of the spend protocol keeps, with no assumption on when the counter
    disappears, is overwritten or is incremented while absent. */
module SpendBooks {
  import opened Options
  import opened Limits
  import opened SpendHistory
  import opened Amounts
  import opened SpendProtocol
  import P = SyncPipeline

  predicate Running(pc: Pc) {
    !pc.Idle? && !pc.Done?
  }

  predicate SoundThread(s: State, t: Thread) {
    Running(t.pc) ==> t.req.cost > 0 && t.req.process < |s.pipe.procs|
  }

  ghost predicate Sound(s: State) {
    && P.Sound(s.pipe)
    && s.unbilled >= 0 && s.unanswered >= 0
    && s.mark <= |s.spends|
    && (forall i :: 0 <= i < |s.threads| ==> SoundThread(s, s.threads[i]))
  }

  function Count(es: seq<EventType>, e: EventType): int {
    if es == [] then 0 else Count(es[..|es| - 1], e) + (if es[|es| - 1] == e then 1 else 0)
  }

  /** The account: usage, calls returned, events notified and the counter all agree with the history. */
  ghost predicate Books(l: ServiceLimit, opening: int, s: State) {
    && Accounted(l, s) == opening + Sum(l, Credited, s.spends)
    && s.returned + Measure(l, OwedCost, s.threads) + s.unanswered == Sum(l, FullCost, s.spends)
    && (forall e ::
          Count(s.notified, e) + Count(s.unnotified, e) + Measure(l, HeldEvent(e), s.threads)
          == Sum(l, FullEvent(e), s.spends))
    && Audited(l, opening, s.spends)
  }

  /** The counter is the value it was initialised with plus every increment since. */
  ghost predicate Counted(l: ServiceLimit, s: State) {
    s.mark <= |s.spends| && (s.cell.Some? ==> s.cell.value == s.base + Sum(l, Cost, s.spends[s.mark..]))
  }

  lemma {:induction false} MeasureUpdate(l: ServiceLimit, g: Gauge, ts: seq<Thread>, i: nat, t: Thread)
    requires i < |ts|
    ensures Measure(l, g, ts[i := t]) == Measure(l, g, ts) - Weigh(l, g, ts[i]) + Weigh(l, g, t)
  {
    if i > 0 {
      MeasureUpdate(l, g, ts[1..], i - 1, t);
      assert ts[i := t][1..] == ts[1..][i - 1 := t];
    } else {
      assert ts[i := t][1..] == ts[1..];
    }
  }

  /** A sum of weights is at least each of them. */
  lemma {:induction false} MeasureCovers(l: ServiceLimit, g: Gauge, ts: seq<Thread>, i: int)
    requires Valid(l)
    requires forall j :: 0 <= j < |ts| && Running(ts[j].pc) ==> ts[j].req.cost > 0
    requires -1 <= i < |ts|
    ensures Measure(l, g, ts) >= 0
    ensures i >= 0 ==> Measure(l, g, ts) >= Weigh(l, g, ts[i]) >= 0
  {
    if ts != [] {
      MeasureCovers(l, g, ts[1..], if i > 0 then i - 1 else -1);
      WeightIsNonNegative(l, g, ts[0]);
    }
  }

  lemma WeightIsNonNegative(l: ServiceLimit, g: Gauge, t: Thread)
    requires Valid(l) && (Running(t.pc) ==> t.req.cost > 0)
    ensures Weigh(l, g, t) >= 0
  {
  }

  lemma CountAppend(es: seq<EventType>, xs: seq<EventType>, e: EventType)
    requires |xs| <= 1
    ensures Count(es + xs, e) == Count(es, e) + (if xs == [e] then 1 else 0)
  {
    if xs == [] {
      assert es + xs == es;
    } else {
      assert (es + xs)[..|es|] == es;
    }
  }

  lemma StepKeepsPipeSound(l: ServiceLimit, s: State, a: Action)
    requires Valid(l) && Sound(s) && Charges(a)
    ensures P.Sound(Step(l, s, a).pipe) && |Step(l, s, a).pipe.procs| == |s.pipe.procs|
  {
    if a.Sync? && !a.a.Record? {
      P.StepKeepsSound(s.pipe, a.a);
      P.StepKeepsTrace(Everything, s.pipe, a.a);
    } else if a.Record? && a.i < |s.threads| && s.threads[a.i].pc.Incremented? {
      var t := s.threads[a.i];
      assert SoundThread(s, t);
      CreditIsMetered(l, t.req.cost, t.pc.total);
      var b := P.Record(t.req.process, t.req.entry, SpendOf(l, t, t.pc.total).credit);
      P.StepKeepsSound(s.pipe, b);
      P.StepKeepsTrace(Everything, s.pipe, b);
    }
  }

  /** Only the acting thread moves. */
  lemma StepMovesOneThread(l: ServiceLimit, s: State, a: Action)
    ensures |Step(l, s, a).threads| == |s.threads|
    ensures forall j :: 0 <= j < |s.threads| && (!OfThread(a) || j != a.i) ==>
        Step(l, s, a).threads[j] == s.threads[j]
  {
    if OfThread(a) && a.i < |s.threads| {
      ThreadMoves(l, s, a);
    }
  }

  lemma ThreadMoves(l: ServiceLimit, s: State, a: Action)
    requires OfThread(a) && a.i < |s.threads|
    ensures var ts := ThreadStep(l, s, a).threads;
      |ts| == |s.threads| && ts == s.threads[a.i := ts[a.i]]
  {
    assert Write(l, s, s.threads[a.i]).threads == s.threads;
    assert s.threads == s.threads[a.i := s.threads[a.i]];
  }

  /** It keeps its request unless it begins a new one. */
  lemma StepKeepsRequest(l: ServiceLimit, s: State, a: Action)
    requires OfThread(a) && a.i < |s.threads| && Step(l, s, a) != s
    ensures var t := Step(l, s, a).threads[a.i];
      if a.Begin? then t.req == a.req && a.req.process < |s.pipe.procs| && (a.req.cost == 0 ==> !Running(t.pc))
      else Running(s.threads[a.i].pc) && t.req == s.threads[a.i].req
  {
  }

  lemma StepKeepsSums(l: ServiceLimit, s: State, a: Action)
    requires Valid(l) && Sound(s) && Charges(a)
    ensures var s' := Step(l, s, a);
      s'.mark <= |s'.spends| && s'.unbilled >= 0 && s'.unanswered >= 0
  {
    if a.Fail? && a.i < |s.threads| && CanFail(s.threads[a.i].pc) {
      var t := s.threads[a.i];
      assert SoundThread(s, t);
      CreditIsMetered(l, t.req.cost, Value(s.cell) + t.req.cost);
    }
  }

  lemma StepKeepsSound(l: ServiceLimit, s: State, a: Action)
    requires Valid(l) && Sound(s) && Charges(a)
    ensures Sound(Step(l, s, a)) && |Step(l, s, a).threads| == |s.threads|
  {
    StepKeepsPipeSound(l, s, a);
    StepMovesOneThread(l, s, a);
    StepKeepsSums(l, s, a);
    if OfThread(a) && a.i < |s.threads| && Step(l, s, a) != s {
      StepKeepsRequest(l, s, a);
    }
    ThreadsStaySound(l, s, Step(l, s, a), a);
  }

  lemma ThreadsStaySound(l: ServiceLimit, s: State, s': State, a: Action)
    requires Sound(s) && Charges(a) && |s'.threads| == |s.threads| && |s'.pipe.procs| == |s.pipe.procs|
    requires forall j :: 0 <= j < |s.threads| && (!OfThread(a) || j != a.i) ==> s'.threads[j] == s.threads[j]
    requires OfThread(a) && a.i < |s.threads| && s' != s ==>
      var t := s'.threads[a.i];
      if a.Begin? then t.req == a.req && a.req.process < |s.pipe.procs| && (a.req.cost == 0 ==> !Running(t.pc))
      else Running(s.threads[a.i].pc) && t.req == s.threads[a.i].req
    ensures forall j :: 0 <= j < |s'.threads| ==> SoundThread(s', s'.threads[j])
  {
    forall j | 0 <= j < |s'.threads| ensures SoundThread(s', s'.threads[j]) {
      assert SoundThread(s, s.threads[j]);
    }
  }

  /** Nothing is billed, owed or announced in this state of a thread. */
  predicate Quiet(pc: Pc) {
    !pc.Incremented? && !pc.Recorded?
  }

  /** A thread that moves between quiet states and leaves the account alone. */
  lemma QuietMove(l: ServiceLimit, opening: int, s: State, s': State, i: nat, t: Thread)
    requires Books(l, opening, s)
    requires i < |s.threads| && Quiet(s.threads[i].pc) && Quiet(t.pc) && s'.threads == s.threads[i := t]
    requires s'.pipe == s.pipe && s'.spends == s.spends && s'.returned == s.returned
    requires s'.notified == s.notified && s'.unbilled == s.unbilled
    requires s'.unanswered == s.unanswered && s'.unnotified == s.unnotified
    ensures Books(l, opening, s')
    ensures Accounted(l, s') == Accounted(l, s)
  {
    MeasureUpdate(l, HeldCredit, s.threads, i, t);
    MeasureUpdate(l, OwedCost, s.threads, i, t);
    forall e {
      MeasureUpdate(l, HeldEvent(e), s.threads, i, t);
    }
  }

  /** INCRBY by thread i, whether its reply arrives (the thread holds the credit, the cost and the
      event) or not (they are lost). */
  ghost predicate Increments(l: ServiceLimit, s: State, s': State, i: nat) {
    && i < |s.threads| && s.threads[i].pc.Peeked?
    && var t := s.threads[i];
    var total := Value(s.cell) + t.req.cost;
    && s'.cell == Some(total) && s'.pipe == s.pipe
    && s'.returned == s.returned && s'.notified == s.notified
    && s'.spends == s.spends + [Spend(t.req.cost, total, Accounted(l, s) - Min(Value(s.cell), l.overMax))]
    && ((s'.threads == s.threads[i := t.(pc := Incremented(total))]
         && s'.unbilled == s.unbilled && s'.unanswered == s.unanswered && s'.unnotified == s.unnotified)
        || (s'.threads == s.threads[i := t.(pc := Done(Failed))]
            && s'.unbilled == s.unbilled + Credit(l, t.req.cost, total)
            && s'.unanswered == s.unanswered + Owed(l, t.req.cost, total)
            && s'.unnotified == s.unnotified + Announced(l, t.req.cost, total)))
  }

  lemma IncrIncrements(l: ServiceLimit, s: State, a: Action)
    requires a.Incr? || (a.Fail? && a.applied)
    requires a.i < |s.threads| && s.threads[a.i].pc.Peeked?
    ensures Increments(l, s, Step(l, s, a), a.i)
  {
  }

  lemma IncrIsAccounted(l: ServiceLimit, s: State, s': State, i: nat)
    requires Increments(l, s, s', i)
    ensures Accounted(l, s') == Accounted(l, s) + CreditOf(l, s'.spends[|s.spends|])
  {
    MeasureUpdate(l, HeldCredit, s.threads, i, s'.threads[i]);
  }

  /** What the thread now owes and announces, or what is lost, is what the new history entry is worth. */
  lemma IncrOwes(l: ServiceLimit, s: State, s': State, i: nat)
    requires Increments(l, s, s', i)
    ensures Measure(l, OwedCost, s'.threads) + s'.unanswered - Sum(l, FullCost, s'.spends)
      == Measure(l, OwedCost, s.threads) + s.unanswered - Sum(l, FullCost, s.spends)
  {
    SumAppend(l, FullCost, s.spends, s'.spends[|s.spends|]);
    MeasureUpdate(l, OwedCost, s.threads, i, s'.threads[i]);
  }

  lemma IncrAnnounces(l: ServiceLimit, s: State, s': State, i: nat, e: EventType)
    requires Increments(l, s, s', i)
    ensures Measure(l, HeldEvent(e), s'.threads) + Count(s'.unnotified, e) - Sum(l, FullEvent(e), s'.spends)
      == Measure(l, HeldEvent(e), s.threads) + Count(s.unnotified, e) - Sum(l, FullEvent(e), s.spends)
  {
    var event := Announced(l, s.threads[i].req.cost, Value(s.cell) + s.threads[i].req.cost);
    EventWorth(l, s.spends, s'.spends[|s.spends|], event, e);
    MeasureUpdate(l, HeldEvent(e), s.threads, i, s'.threads[i]);
    if s'.threads[i].pc.Done? {
      CountAppend(s.unnotified, event, e);
    } else {
      EventWeight(l, s'.threads[i], event, e);
    }
  }

  lemma EventWorth(l: ServiceLimit, xs: seq<Spend>, x: Spend, event: seq<EventType>, e: EventType)
    requires event == Announced(l, x.cost, x.total)
    ensures Sum(l, FullEvent(e), xs + [x]) == Sum(l, FullEvent(e), xs) + (if event == [e] then 1 else 0)
  {
    SumAppend(l, FullEvent(e), xs, x);
  }

  lemma EventWeight(l: ServiceLimit, t: Thread, event: seq<EventType>, e: EventType)
    requires t.pc.Incremented? && event == Announced(l, t.req.cost, t.pc.total)
    ensures Weigh(l, HeldEvent(e), t) == if event == [e] then 1 else 0
  {
  }

  lemma IncrKeepsBooks(l: ServiceLimit, opening: int, s: State, s': State, i: nat)
    requires Valid(l) && Books(l, opening, s) && Increments(l, s, s', i) && s.threads[i].req.cost > 0
    ensures Books(l, opening, s')
  {
    IncrIsAccounted(l, s, s', i);
    assert s'.spends[..|s'.spends| - 1] == s.spends;
    SumAppend(l, Credited, s.spends, s'.spends[|s.spends|]);
    IncrOwes(l, s, s', i);
    forall e
      ensures Count(s'.notified, e) + Count(s'.unnotified, e) + Measure(l, HeldEvent(e), s'.threads)
        == Sum(l, FullEvent(e), s'.spends)
    {
      IncrAnnounces(l, s, s', i, e);
    }
  }

  lemma RecordKeepsBooks(l: ServiceLimit, opening: int, s: State, i: nat)
    requires Valid(l) && Sound(s) && Books(l, opening, s)
    requires i < |s.threads| && s.threads[i].pc.Incremented?
    ensures Books(l, opening, Step(l, s, Record(i)))
    ensures Accounted(l, Step(l, s, Record(i))) == Accounted(l, s)
  {
    var t := s.threads[i];
    var s' := Step(l, s, Record(i));
    P.StepKeepsTrace(Everything, s.pipe, P.Record(t.req.process, t.req.entry, SpendOf(l, t, t.pc.total).credit));
    forall g {
      MeasureUpdate(l, g, s.threads, i, s'.threads[i]);
    }
  }

  /** The return of thread i: what it owed is accepted, what it announced is notified or lost. */
  ghost predicate Returns(l: ServiceLimit, s: State, s': State, i: nat) {
    && i < |s.threads| && s.threads[i].pc.Recorded?
    && var t := s.threads[i];
    var event := Announced(l, t.req.cost, t.pc.total);
    && |s'.threads| == |s.threads| && s'.threads == s.threads[i := s'.threads[i]] && s'.threads[i].pc.Done?
    && s'.pipe == s.pipe && s'.spends == s.spends && s'.unbilled == s.unbilled && s'.unanswered == s.unanswered
    && s'.returned == s.returned + Owed(l, t.req.cost, t.pc.total)
    && ((s'.notified == s.notified + event && s'.unnotified == s.unnotified)
        || (s'.notified == s.notified && s'.unnotified == s.unnotified + event))
  }

  lemma FinishReturns(l: ServiceLimit, s: State, i: nat, notifies: bool)
    requires i < |s.threads| && s.threads[i].pc.Recorded?
    ensures Returns(l, s, Step(l, s, Finish(i, notifies)), i)
  {
    assert s.notified + [] == s.notified && s.unnotified + [] == s.unnotified;
  }

  lemma ReturnKeepsBooks(l: ServiceLimit, opening: int, s: State, s': State, i: nat)
    requires Books(l, opening, s) && Returns(l, s, s', i)
    ensures Books(l, opening, s')
    ensures Accounted(l, s') == Accounted(l, s)
  {
    var t := s.threads[i];
    MeasureUpdate(l, HeldCredit, s.threads, i, s'.threads[i]);
    MeasureUpdate(l, OwedCost, s.threads, i, s'.threads[i]);
    forall e
      ensures Count(s'.notified, e) + Count(s'.unnotified, e) + Measure(l, HeldEvent(e), s'.threads)
        == Sum(l, FullEvent(e), s'.spends)
    {
      MeasureUpdate(l, HeldEvent(e), s.threads, i, s'.threads[i]);
      CountAppend(s.notified, Announced(l, t.req.cost, t.pc.total), e);
      CountAppend(s.unnotified, Announced(l, t.req.cost, t.pc.total), e);
    }
  }

  /** The steps that neither increment, record nor return. */
  predicate QuietAction(a: Action, pc: Pc) {
    a.Begin? || a.Get? || a.SetNx? || a.ReadLedger? || a.SetUsage? || (a.Fail? && !(a.applied && pc.Peeked?))
  }

  lemma QuietStep(l: ServiceLimit, s: State, a: Action)
    requires OfThread(a) && a.i < |s.threads| && QuietAction(a, s.threads[a.i].pc)
    ensures Step(l, s, a) == s ||
      (var s' := Step(l, s, a);
       && Quiet(s.threads[a.i].pc) && Quiet(s'.threads[a.i].pc)
       && s'.threads == s.threads[a.i := s'.threads[a.i]]
       && s'.pipe == s.pipe && s'.spends == s.spends && s'.returned == s.returned
       && s'.notified == s.notified && s'.unbilled == s.unbilled
       && s'.unanswered == s.unanswered && s'.unnotified == s.unnotified)
  {
  }

  lemma ThreadStepKeepsBooks(l: ServiceLimit, opening: int, s: State, a: Action)
    requires Valid(l) && Sound(s) && Books(l, opening, s) && OfThread(a) && a.i < |s.threads| && Step(l, s, a) != s
    ensures Books(l, opening, Step(l, s, a))
  {
    if QuietAction(a, s.threads[a.i].pc) {
      QuietStep(l, s, a);
      QuietMove(l, opening, s, Step(l, s, a), a.i, Step(l, s, a).threads[a.i]);
    } else if a.Record? {
      RecordKeepsBooks(l, opening, s, a.i);
    } else if a.Finish? {
      FinishReturns(l, s, a.i, a.notifies);
      ReturnKeepsBooks(l, opening, s, Step(l, s, a), a.i);
    } else {
      assert SoundThread(s, s.threads[a.i]);
      IncrIncrements(l, s, a);
      IncrKeepsBooks(l, opening, s, Step(l, s, a), a.i);
    }
  }

  lemma StepKeepsBooks(l: ServiceLimit, opening: int, s: State, a: Action)
    requires Valid(l) && Sound(s) && Charges(a) && Books(l, opening, s)
    ensures Books(l, opening, Step(l, s, a))
  {
    if a.Sync? {
      P.StepKeepsTrace(Everything, s.pipe, a.a);
    } else if OfThread(a) && a.i < |s.threads| && Step(l, s, a) != s {
      ThreadStepKeepsBooks(l, opening, s, a);
    }
  }

  /** What a step can do to the counter and its base: nothing, lose it, start it anew, or add to it. */
  ghost predicate CounterStep(s: State, s': State) {
    || (s'.spends == s.spends && s'.cell == s.cell && s'.base == s.base && s'.mark == s.mark)
    || (s'.spends == s.spends && s'.cell.None? && s'.mark == s.mark)
    || (s'.spends == s.spends && s'.cell == Some(s'.base) && s'.mark == |s.spends|)
    || (|s'.spends| == |s.spends| + 1 && s'.spends[..|s.spends|] == s.spends
        && s'.cell == Some(Value(s.cell) + s'.spends[|s.spends|].cost)
        && (if s.cell.Some? then s'.base == s.base && s'.mark == s.mark
            else s'.base == 0 && s'.mark == |s.spends|))
  }

  lemma StepMovesBase(l: ServiceLimit, s: State, a: Action)
    ensures CounterStep(s, Step(l, s, a))
  {
  }

  lemma StepKeepsCounted(l: ServiceLimit, s: State, s': State)
    requires Counted(l, s) && CounterStep(s, s')
    ensures Counted(l, s')
  {
    if |s'.spends| > |s.spends| {
      var x := s'.spends[|s.spends|];
      var since := if s.cell.Some? then s.spends[s.mark..] else [];
      assert s'.spends[s'.mark..] == since + [x];
      SumAppend(l, Cost, since, x);
    } else if s'.mark == |s.spends| {
      assert s'.spends[s'.mark..] == [];
    }
  }

  lemma InitKeepsBooks(l: ServiceLimit, s: State)
    requires Valid(l) && Init(s)
    ensures Sound(s) && Books(l, Ledger(s), s) && Counted(l, s) && Ledger(s) >= 0
    ensures forall g :: Measure(l, g, s.threads) == 0
  {
    forall g ensures Measure(l, g, s.threads) == 0 {
      IdleMeasuresNothing(l, g, s.threads);
    }
    P.FreshHoldsNothing(Everything, s.pipe.procs);
    TotalNonNegative(Everything, s.pipe.ledger);
  }

  lemma {:induction false} IdleMeasuresNothing(l: ServiceLimit, g: Gauge, ts: seq<Thread>)
    requires forall i :: 0 <= i < |ts| ==> ts[i].pc.Idle?
    ensures Measure(l, g, ts) == 0
  {
    if ts != [] {
      IdleMeasuresNothing(l, g, ts[1..]);
    }
  }

  lemma {:induction false} ExecKeepsBooks(l: ServiceLimit, opening: int, s: State, actions: seq<Action>)
    requires Valid(l) && AllCharge(actions)
    requires Sound(s) && Books(l, opening, s) && Counted(l, s)
    ensures var t := Exec(l, s, actions);
      Sound(t) && Books(l, opening, t) && Counted(l, t) && |t.threads| == |s.threads|
    decreases |actions|
  {
    if actions != [] {
      StepKeepsSound(l, s, actions[0]);
      StepKeepsBooks(l, opening, s, actions[0]);
      StepMovesBase(l, s, actions[0]);
      StepKeepsCounted(l, s, Step(l, s, actions[0]));
      ExecKeepsBooks(l, opening, Step(l, s, actions[0]), actions[1..]);
    }
  }
}
