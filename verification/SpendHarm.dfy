/** Exactly which disappearances and overwritings of the counter let more be credited than the hard
    limit leaves. */
module SpendHarm {
  import opened Options
  import opened Limits
  import opened SpendHistory
  import opened Amounts
  import opened SpendProtocol
  import opened SpendBooks
  import opened SpendSafety
  import opened SpendRuns
  import P = SyncPipeline

  /** From s some calm continuation credits more than the hard limit left at the opening. */
  ghost predicate Harmful(l: ServiceLimit, opening: int, s: State) {
    exists actions :: AllCharge(actions) && Calm(l, s, actions) && Exceeds(l, opening, Exec(l, s, actions))
  }

  ghost predicate Exceeds(l: ServiceLimit, opening: int, s: State) {
    Sum(l, Credited, s.spends) > Max(0, l.overMax - opening)
  }

  predicate ByThreads(actions: seq<Action>) {
    forall k :: 0 <= k < |actions| ==> OfThread(actions[k]) && Charges(actions[k])
  }

  /** The threads alone can take s to t. */
  ghost predicate Leads(l: ServiceLimit, s: State, t: State) {
    exists actions :: ByThreads(actions) && Exec(l, s, actions) == t
  }

  lemma {:induction false} ThreadsAreCalm(l: ServiceLimit, s: State, actions: seq<Action>)
    requires ByThreads(actions)
    ensures AllCharge(actions) && Calm(l, s, actions)
    decreases |actions|
  {
    if actions != [] {
      ThreadsAreCalm(l, Step(l, s, actions[0]), actions[1..]);
    }
  }

  lemma LeadsToHarm(l: ServiceLimit, opening: int, s: State, t: State)
    requires Leads(l, s, t) && Exceeds(l, opening, t)
    ensures Harmful(l, opening, s)
  {
    var actions :| ByThreads(actions) && Exec(l, s, actions) == t;
    ThreadsAreCalm(l, s, actions);
  }

  lemma LeadsOn(l: ServiceLimit, s: State, u: State, t: State)
    requires Leads(l, s, u) && Leads(l, u, t)
    ensures Leads(l, s, t)
  {
    var xs :| ByThreads(xs) && Exec(l, s, xs) == u;
    var ys :| ByThreads(ys) && Exec(l, u, ys) == t;
    ExecAppend(l, s, xs, ys);
    assert ByThreads(xs + ys);
  }

  lemma StepLeads(l: ServiceLimit, s: State, a: Action)
    requires OfThread(a) && Charges(a)
    ensures Leads(l, s, Step(l, s, a))
  {
    assert [a][1..] == [];
    assert Exec(l, s, [a]) == Step(l, s, a);
    assert ByThreads([a]);
  }

  /** A lone call of thread i: the others stay where they are. */
  lemma AloneLeads(l: ServiceLimit, s: State, i: nat, req: Request) returns (t: State)
    requires Free(s, i) && req.process < |s.pipe.procs| && req.cost >= 0
    ensures Leads(l, s, t)
    ensures EndsAs(l, s, t, i, req, SpendAlone(l, s.cell, Ledger(s), req.cost), true)
    ensures forall j :: 0 <= j < |s.threads| && j != i ==> t.threads[j] == s.threads[j]
  {
    var actions := AloneActions(s.cell, i, req, true);
    t := Exec(l, s, actions);
    AloneIsARun(l, s, i, req, true);
    AloneActionsAreOwn(s.cell, i, req, true);
    assert ByThreads(actions);
    forall j | 0 <= j < |s.threads| && j != i ensures t.threads[j] == s.threads[j] {
      OthersWait(l, s, i, actions, j);
    }
  }

  /** The rest of a call that EnsureUsage let through. */
  lemma CheckedLeads(l: ServiceLimit, s: State, i: nat) returns (t: State)
    requires i < |s.threads| && s.threads[i].pc.Checked? && Live(s) && s.cell.value < l.overMax
    ensures Leads(l, s, t)
    ensures var cost := s.threads[i].req.cost; Grown(s.spends, t.spends, cost, s.cell.value + cost)
  {
    SpendRun(l, s, i, true);
    t := Exec(l, s, SpendActions(i, true));
    assert ByThreads(SpendActions(i, true));
  }

  lemma GrownSum(l: ServiceLimit, xs: seq<Spend>, ys: seq<Spend>, cost: int, total: int)
    requires Valid(l) && Grown(xs, ys, cost, total) && cost > 0
    ensures Sum(l, Credited, ys) == Sum(l, Credited, xs) + Metered(l, cost, total)
  {
    assert ys == xs + [ys[|xs|]];
    SumAppend(l, Credited, xs, ys[|xs|]);
    CreditIsMetered(l, cost, total);
  }

  /** A free thread can spend all that the counter, or the ledger without one, seems to leave. */
  lemma SpendsTheRest(l: ServiceLimit, s: State, i: nat) returns (t: State)
    requires Valid(l) && Free(s, i) && |s.pipe.procs| > 0
    requires s.cell in {None, Some(Ledger(s))} && 0 <= Ledger(s) < l.overMax
    ensures Leads(l, s, t) && |t.threads| == |s.threads| && Ledger(t) == Ledger(s)
    ensures Sum(l, Credited, t.spends) == Sum(l, Credited, s.spends) + l.overMax - Ledger(s)
    ensures forall j :: 0 <= j < |s.threads| && j != i ==> t.threads[j] == s.threads[j]
  {
    var req := Request(0, Entry(Instant(0), Project(0)), l.overMax - Ledger(s));
    t := AloneLeads(l, s, i, req);
    CreditIsMetered(l, req.cost, l.overMax);
    GrownSum(l, s.spends, t.spends, req.cost, l.overMax);
  }

  /** Usage that the ledger lacks is spent again. */
  lemma MissingUsageIsHarmful(l: ServiceLimit, opening: int, s: State, s': State, i: nat)
    requires Good(l, opening, s) && Free(s, i) && |s.pipe.procs| > 0
    requires Accounted(l, s) > Ledger(s)
    requires s' == s.(cell := s'.cell, base := s'.base, mark := s'.mark) && s'.cell in {None, Some(Ledger(s))}
    ensures Harmful(l, opening, s')
  {
    LedgerIsAccounted(l, s);
    var t := SpendsTheRest(l, s', i);
    LeadsToHarm(l, opening, s', t);
  }

  /** Thread i is elected and has read the ledger. */
  lemma ElectLeads(l: ServiceLimit, s: State, i: nat, req: Request) returns (t: State)
    requires Free(s, i) && req.process < |s.pipe.procs| && req.cost > 0 && s.cell.None?
    ensures Leads(l, s, t)
    ensures t.threads == s.threads[i := Thread(req, Fetched(Ledger(s)))]
    ensures t.cell == Some(SENTINEL) && t.spends == s.spends && t.pipe == s.pipe
  {
    var s1 := Step(l, s, Begin(i, req));
    var s2 := Step(l, s1, Get(i));
    var s3 := Step(l, s2, SetNx(i));
    t := Step(l, s3, ReadLedger(i));
    var actions := [Begin(i, req), Get(i), SetNx(i), ReadLedger(i)];
    ExecOne(l, s, Begin(i, req), [Get(i), SetNx(i), ReadLedger(i)]);
    ExecOne(l, s1, Get(i), [SetNx(i), ReadLedger(i)]);
    ExecOne(l, s2, SetNx(i), [ReadLedger(i)]);
    ExecOne(l, s3, ReadLedger(i), []);
    assert ByThreads(actions) && Exec(l, s, actions) == t;
  }

  lemma IncrLeads(l: ServiceLimit, s: State, p: nat) returns (t: State)
    requires p < |s.threads| && s.threads[p].pc.Peeked?
    ensures Leads(l, s, t) && |t.threads| == |s.threads| && t.pipe == s.pipe
    ensures Grown(s.spends, t.spends, s.threads[p].req.cost, Value(s.cell) + s.threads[p].req.cost)
    ensures forall j :: 0 <= j < |s.threads| && j != p ==> t.threads[j] == s.threads[j]
  {
    t := Step(l, s, Incr(p));
    StepLeads(l, s, Incr(p));
    IncrIncrements(l, s, Incr(p));
  }

  /** A client's SET of the ledger total, and the rest of its call. */
  lemma SetLeads(l: ServiceLimit, s: State, i: nat) returns (t: State)
    requires i < |s.threads| && s.threads[i].pc == Fetched(Ledger(s)) && 0 <= Ledger(s) < l.overMax
    ensures Leads(l, s, t)
    ensures var cost := s.threads[i].req.cost; Grown(s.spends, t.spends, cost, Ledger(s) + cost)
  {
    var u := Step(l, s, SetUsage(i));
    StepLeads(l, s, SetUsage(i));
    assert u.threads[i] == s.threads[i].(pc := Checked) && u.cell == Some(Ledger(s)) && u.spends == s.spends;
    t := CheckedLeads(l, u, i);
    LeadsOn(l, s, u, t);
  }

  /** Thread p increments the placeholder behind which thread i has read the ledger. */
  lemma ForgottenIncrement(l: ServiceLimit, opening: int, s: State, p: nat, i: nat)
    requires Valid(l) && i < |s.threads| && p < |s.threads| && i != p && s.threads[p].req.cost > 0
    requires s.cell == Some(SENTINEL) && s.threads[p].pc.Peeked? && s.threads[i].pc == Fetched(Ledger(s))
    requires s.threads[i].req.cost == Max(1, l.overMax - Ledger(s)) && Ledger(s) >= 0
    requires Sum(l, Credited, s.spends) == Ledger(s) - opening >= 0 && opening < l.overMax
    ensures Harmful(l, opening, s)
  {
    var cost := s.threads[p].req.cost;
    var v := IncrLeads(l, s, p);
    GrownSum(l, s.spends, v.spends, cost, SENTINEL + cost);
    if Ledger(s) >= l.overMax {
      LeadsToHarm(l, opening, s, v);
    } else {
      var t := SetLeads(l, v, i);
      LeadsOn(l, s, v, t);
      GrownSum(l, v.spends, t.spends, s.threads[i].req.cost, l.overMax);
      LeadsToHarm(l, opening, s, t);
    }
  }

  lemma HarmSpreadsBack(l: ServiceLimit, opening: int, s: State, u: State)
    requires Leads(l, s, u) && Harmful(l, opening, u)
    ensures Harmful(l, opening, s)
  {
    var xs :| ByThreads(xs) && Exec(l, s, xs) == u;
    var ys :| AllCharge(ys) && Calm(l, u, ys) && Exceeds(l, opening, Exec(l, u, ys));
    ExecAppend(l, s, xs, ys);
    CalmAppend(l, s, xs, ys);
  }

  lemma {:induction false} CalmAppend(l: ServiceLimit, s: State, xs: seq<Action>, ys: seq<Action>)
    requires ByThreads(xs) && AllCharge(ys) && Calm(l, Exec(l, s, xs), ys)
    ensures AllCharge(xs + ys) && Calm(l, s, xs + ys)
    decreases |xs|
  {
    if xs == [] {
      assert xs + ys == ys;
    } else {
      assert (xs + ys)[1..] == xs[1..] + ys;
      CalmAppend(l, Step(l, s, xs[0]), xs[1..], ys);
    }
  }

  /** A call that has peeked increments an absent counter or a placeholder, and that is forgotten. */
  lemma PeekedIsHarmful(l: ServiceLimit, opening: int, s: State, p: nat, i: nat)
    requires Good(l, opening, s) && Free(s, i) && |s.pipe.procs| > 0 && Live(s)
    requires p < |s.threads| && s.threads[p].pc.Peeked? && Accounted(l, s) == Ledger(s)
    ensures Harmful(l, opening, Step(l, s, Drop))
  {
    LedgerIsAccounted(l, s);
    CreditsAreNonNegative(l, opening, s.spends);
    var s0 := s.(cell := None);
    var req := Request(0, Entry(Instant(0), Project(0)), Max(1, l.overMax - Ledger(s)));
    var u := ElectLeads(l, s0, i, req);
    assert SoundThread(s, s.threads[p]);
    ForgottenIncrement(l, opening, u, p, i);
    HarmSpreadsBack(l, opening, s0, u);
  }

  lemma {:induction false} CreditsAreNonNegative(l: ServiceLimit, base: int, xs: seq<Spend>)
    requires Valid(l) && Audited(l, base, xs)
    ensures Sum(l, Credited, xs) >= 0
  {
    if xs != [] {
      CreditsAreNonNegative(l, base, xs[..|xs| - 1]);
      CreditIsMetered(l, xs[|xs| - 1].cost, xs[|xs| - 1].total);
    }
  }

  lemma ReadLeads(l: ServiceLimit, s: State, e: nat) returns (t: State)
    requires e < |s.threads| && (s.threads[e].pc.Elected? || s.threads[e].pc == Fetched(Ledger(s)))
    ensures Leads(l, s, t)
    ensures t == s.(threads := s.threads[e := s.threads[e].(pc := Fetched(Ledger(s)))])
  {
    t := Step(l, s, ReadLedger(e));
    StepLeads(l, s, ReadLedger(e));
  }

  /** A client that has read the ledger sets the counter behind the back of another. */
  lemma LateSetIsHarmful(l: ServiceLimit, opening: int, s: State, e: nat, i: nat)
    requires Valid(l) && Free(s, i) && |s.pipe.procs| > 0 && 0 <= Ledger(s) < l.overMax
    requires e < |s.threads| && s.threads[e].pc == Fetched(Ledger(s)) && s.threads[e].req.cost > 0
    requires s.cell in {None, Some(Ledger(s))} && Sum(l, Credited, s.spends) == Ledger(s) - opening >= 0
    ensures Harmful(l, opening, s)
  {
    var v := SpendsTheRest(l, s, i);
    var t := SetLeads(l, v, e);
    LeadsOn(l, s, v, t);
    var cost := s.threads[e].req.cost;
    GrownSum(l, v.spends, t.spends, cost, Ledger(v) + cost);
    LeadsToHarm(l, opening, s, t);
  }

  /** An elected client that has lost its placeholder will do so. */
  lemma ElectedIsHarmful(l: ServiceLimit, opening: int, s: State, s': State, e: nat, i: nat)
    requires Good(l, opening, s) && Free(s, i) && |s.pipe.procs| > 0 && Ledger(s) < l.overMax
    requires e < |s.threads| && (s.threads[e].pc.Elected? || s.threads[e].pc.Fetched?)
    requires s' == s.(cell := s'.cell, base := s'.base, mark := s'.mark) && s'.cell in {None, Some(Ledger(s))}
    ensures Harmful(l, opening, s')
  {
    LedgerIsAccounted(l, s);
    CreditsAreNonNegative(l, opening, s.spends);
    ElectingIsCounted(l, opening, s, e);
    assert SoundThread(s, s.threads[e]);
    var u := ReadLeads(l, s', e);
    LateSetIsHarmful(l, opening, u, e, i);
    HarmSpreadsBack(l, opening, s', u);
  }

  /** A good state and all its calm continuations stay within the limit. */
  lemma GoodIsHarmless(l: ServiceLimit, opening: int, s: State)
    requires Good(l, opening, s)
    ensures !Harmful(l, opening, s)
  {
    forall actions | AllCharge(actions) && Calm(l, s, actions) ensures !Exceeds(l, opening, Exec(l, s, actions)) {
      ExecKeepsSteady(l, opening, s, actions);
    }
  }

  /** The ledger alone fills the quota, and nobody can tell otherwise. */
  ghost predicate Full(l: ServiceLimit, s: State) {
    && Ledger(s) >= l.overMax && NoPeeked(s)
    && (s.cell.Some? ==> s.cell.value == SENTINEL || s.cell.value >= l.overMax)
    && (forall i :: 0 <= i < |s.threads| && s.threads[i].pc.Fetched? ==> s.threads[i].pc.usage >= l.overMax)
  }

  lemma FullCounter(l: ServiceLimit, s: State, a: Action)
    requires Valid(l) && Full(l, s) && OfThread(a) && a.i < |s.threads|
    ensures var s' := Step(l, s, a);
      s'.spends == s.spends && (s'.cell.Some? ==> s'.cell.value == SENTINEL || s'.cell.value >= l.overMax)
  {
  }

  lemma FullThread(l: ServiceLimit, s: State, a: Action)
    requires Valid(l) && Full(l, s) && OfThread(a) && a.i < |s.threads|
    ensures var s' := Step(l, s, a);
      && Ledger(s') == Ledger(s) && |s'.threads| == |s.threads| && !s'.threads[a.i].pc.Peeked?
      && (s'.threads[a.i].pc.Fetched? ==> s'.threads[a.i].pc.usage >= l.overMax)
  {
  }

  lemma ThreadStepKeepsFull(l: ServiceLimit, s: State, a: Action)
    requires Valid(l) && Full(l, s) && OfThread(a) && a.i < |s.threads|
    ensures Full(l, Step(l, s, a)) && Step(l, s, a).spends == s.spends
  {
    StepMovesOneThread(l, s, a);
    FullCounter(l, s, a);
    FullThread(l, s, a);
  }

  lemma StepKeepsFull(l: ServiceLimit, s: State, a: Action)
    requires Valid(l) && Sound(s) && Full(l, s) && CalmStep(l, s, a)
    ensures Full(l, Step(l, s, a)) && Step(l, s, a).spends == s.spends
  {
    if a.Sync? {
      P.LedgerGrows(Everything, s.pipe, a.a);
    } else if OfThread(a) && a.i < |s.threads| {
      ThreadStepKeepsFull(l, s, a);
    }
  }

  lemma {:induction false} FullStaysFull(l: ServiceLimit, s: State, actions: seq<Action>)
    requires Valid(l) && Sound(s) && Full(l, s) && AllCharge(actions) && Calm(l, s, actions)
    ensures Exec(l, s, actions).spends == s.spends
    decreases |actions|
  {
    if actions != [] {
      StepKeepsSound(l, s, actions[0]);
      StepKeepsFull(l, s, actions[0]);
      FullStaysFull(l, Step(l, s, actions[0]), actions[1..]);
    }
  }

  /** Losing or replacing a placeholder is harmless once the ledger fills the quota. */
  lemma FullIsHarmless(l: ServiceLimit, opening: int, s: State, s': State)
    requires Good(l, opening, s) && !Live(s) && Ledger(s) >= l.overMax
    requires s' == s.(cell := s'.cell, base := s'.base, mark := s'.mark) && s'.cell in {None, Some(Ledger(s))}
    requires s'.mark <= |s'.spends|
    ensures !Harmful(l, opening, s')
  {
    assert forall i :: 0 <= i < |s.threads| ==> SoundThread(s, s.threads[i]) && SoundThread(s', s'.threads[i]);
    forall actions | AllCharge(actions) && Calm(l, s', actions) ensures !Exceeds(l, opening, Exec(l, s', actions)) {
      FullStaysFull(l, s', actions);
    }
  }

  /** Which disappearances of the key are harmful, exactly, in every state of a calm run with a free
      goroutine. A live counter: when the ledger lacks some usage, or a call has peeked and not yet
      incremented. The placeholder: when a client is elected and the ledger leaves something to
      spend. */
  lemma DropIsHarmfulExactlyWhen(l: ServiceLimit, opening: int, s: State, i: nat)
    requires Good(l, opening, s) && Free(s, i) && |s.pipe.procs| > 0
    ensures Live(s) ==> (Harmful(l, opening, Step(l, s, Drop)) <==> Accounted(l, s) > Ledger(s) || !NoPeeked(s))
    ensures s.cell == Some(SENTINEL) ==>
        (Harmful(l, opening, Step(l, s, Drop)) <==> !NoElected(s) && Ledger(s) < l.overMax)
  {
    var s' := Step(l, s, Drop);
    LedgerIsAccounted(l, s);
    if SafeToDrop(l, s) {
      StepKeepsSteady(l, opening, s, Drop);
      GoodIsHarmless(l, opening, s');
    } else if Live(s) && Accounted(l, s) > Ledger(s) {
      MissingUsageIsHarmful(l, opening, s, s', i);
    } else if Live(s) {
      var p :| 0 <= p < |s.threads| && s.threads[p].pc.Peeked?;
      PeekedIsHarmful(l, opening, s, p, i);
    } else if Ledger(s) >= l.overMax {
      FullIsHarmless(l, opening, s, s');
    } else {
      var e :| 0 <= e < |s.threads| && (s.threads[e].pc.Elected? || s.threads[e].pc.Fetched?);
      ElectedIsHarmful(l, opening, s, s', e, i);
    }
  }

  /** A SET to the ledger total: the case that nothing separates the ledger read from the SET. */
  lemma PreparedAtOnce(l: ServiceLimit, opening: int, s: State, i: nat)
    requires Good(l, opening, s) && Free(s, i) && |s.pipe.procs| > 0
    ensures Harmful(l, opening, Step(l, s, Prepare(Ledger(s))))
      <==> Accounted(l, s) > Ledger(s) || (!NoElected(s) && Ledger(s) < l.overMax)
  {
    var s' := Step(l, s, Prepare(Ledger(s)));
    LedgerIsAccounted(l, s);
    if SafeToPrepare(l, s, Ledger(s)) {
      StepKeepsSteady(l, opening, s, Prepare(Ledger(s)));
      GoodIsHarmless(l, opening, s');
    } else if Accounted(l, s) > Ledger(s) {
      MissingUsageIsHarmful(l, opening, s, s', i);
    } else {
      var e :| 0 <= e < |s.threads| && (s.threads[e].pc.Elected? || s.threads[e].pc.Fetched?);
      ElectingIsCounted(l, opening, s, e);
      if Ledger(s) >= l.overMax {
        FullIsHarmless(l, opening, s, s');
      } else {
        ElectedIsHarmful(l, opening, s, s', e, i);
      }
    }
  }

  /** A counter below the usage accounted for and below the limit lets the difference be spent again. */
  lemma LowCounterIsHarmful(l: ServiceLimit, opening: int, s: State, usage: int, i: nat)
    requires Good(l, opening, s) && Free(s, i) && |s.pipe.procs| > 0
    requires 0 <= usage < Min(Accounted(l, s), l.overMax)
    ensures Harmful(l, opening, Step(l, s, Prepare(usage)))
  {
    var s' := Step(l, s, Prepare(usage));
    var req := Request(0, Entry(Instant(0), Project(0)), l.overMax - usage);
    CreditsAreNonNegative(l, opening, s.spends);
    CreditIsMetered(l, req.cost, l.overMax);
    var t := AloneLeads(l, s', i, req);
    GrownSum(l, s'.spends, t.spends, req.cost, l.overMax);
    LeadsToHarm(l, opening, s', t);
  }

  /** A counter at or above the limit, with a ledger above it too, lets nothing be spent. */
  lemma HighCounterIsHarmless(l: ServiceLimit, opening: int, s: State, usage: int)
    requires Good(l, opening, s) && l.overMax <= usage < Ledger(s)
    ensures !Harmful(l, opening, Step(l, s, Prepare(usage)))
  {
    var s' := Step(l, s, Prepare(usage));
    LedgerIsAccounted(l, s);
    assert s'.threads == s.threads && s'.spends == s.spends;
    assert forall j :: 0 <= j < |s.threads| ==> SoundThread(s, s.threads[j]) && SoundThread(s', s'.threads[j]);
    forall actions | AllCharge(actions) && Calm(l, s', actions) ensures !Exceeds(l, opening, Exec(l, s', actions)) {
      FullStaysFull(l, s', actions);
    }
  }

  /** When the server's PrepareUsage is harmful, exactly. It reads the ledger first and sets the counter
      later, so what it sets is the ledger total or an older, smaller one. It is harmful when that is
      less than the usage accounted for, up to the limit; or when a client is elected and the ledger
      leaves something to spend. */
  lemma PrepareIsHarmfulExactlyWhen(l: ServiceLimit, opening: int, s: State, usage: int, i: nat)
    requires Good(l, opening, s) && Free(s, i) && |s.pipe.procs| > 0
    requires 0 <= usage <= Ledger(s)
    ensures Harmful(l, opening, Step(l, s, Prepare(usage)))
      <==> usage < Min(Accounted(l, s), l.overMax) || (!NoElected(s) && Ledger(s) < l.overMax)
  {
    LedgerIsAccounted(l, s);
    if usage == Ledger(s) {
      PreparedAtOnce(l, opening, s, i);
    } else if usage < Min(Accounted(l, s), l.overMax) {
      LowCounterIsHarmful(l, opening, s, usage, i);
    } else {
      HighCounterIsHarmless(l, opening, s, usage);
    }
  }
}
