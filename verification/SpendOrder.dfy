/** The order in which events are notified, which is not always the order in which they are raised:
    a call notifies after its increment, and others may increment and return in between. */
module SpendOrder {
  import opened Options
  import opened Limits
  import opened SpendHistory
  import opened Amounts
  import opened SpendProtocol
  import opened SpendBooks
  import opened SpendSafety
  import opened SpendTheorems
  import opened SpendRuns
  import opened SpendHarm
  import P = SyncPipeline

  /** The event a thread has raised and has yet to notify. */
  function HeldEvents(l: ServiceLimit, t: Thread): seq<EventType> {
    if t.pc.Incremented? || t.pc.Recorded? then Announced(l, t.req.cost, t.pc.total) else []
  }

  predicate Holds(l: ServiceLimit, t: Thread, e: EventType) {
    HeldEvents(l, t) == [e]
  }

  /** What is notified is in order, and before everything that is yet to be notified. */
  ghost predicate Ordered(l: ServiceLimit, s: State) {
    && Increasing(s.notified)
    && (forall i, e, f :: 0 <= i < |s.threads| && Holds(l, s.threads[i], f) && e in s.notified ==> Rank(e) < Rank(f))
  }

  /** The step notifies an event while another thread still holds an earlier one. */
  predicate Overtakes(l: ServiceLimit, s: State, a: Action) {
    && a.Finish? && a.notifies && a.i < |s.threads| && s.threads[a.i].pc.Recorded?
    && exists e :: Holds(l, s.threads[a.i], e) && EarlierHeld(l, s.threads, a.i, e)
  }

  lemma HeldIsWeighed(l: ServiceLimit, t: Thread, e: EventType)
    ensures Weigh(l, HeldEvent(e), t) == if Holds(l, t, e) then 1 else 0
    ensures |HeldEvents(l, t)| <= 1
  {
  }

  /** In a calm state every notified event was raised, and no two threads hold the same event. */
  lemma NotifiedWasRaised(l: ServiceLimit, opening: int, s: State, e: EventType)
    requires Good(l, opening, s)
    ensures e in s.notified ==> e in Events(l, s.spends)
    ensures forall i, j :: 0 <= i < j < |s.threads| ==> !(Holds(l, s.threads[i], e) && Holds(l, s.threads[j], e))
  {
    CostsArePositive(s);
    CountsMembers(s.notified, e);
    CountsMembers(s.unnotified, e);
    MeasureCovers(l, HeldEvent(e), s.threads, -1);
    if opening < l.overMax {
      NoUndercountIsChained(l, opening, s.spends);
      FullEventsAtMostOnce(l, opening, s.spends, e);
    }
    forall i, j | 0 <= i < j < |s.threads|
      ensures !(Holds(l, s.threads[i], e) && Holds(l, s.threads[j], e))
    {
      HeldIsWeighed(l, s.threads[i], e);
      HeldIsWeighed(l, s.threads[j], e);
      TwoAreTwo(l, HeldEvent(e), s.threads, i, j);
    }
  }

  /** A step that notifies nothing and after which every event held was held before. */
  lemma KeepsOrdered(l: ServiceLimit, s: State, s': State, i: nat)
    requires Ordered(l, s) && s'.notified == s.notified
    requires i < |s.threads| == |s'.threads| && s'.threads == s.threads[i := s'.threads[i]]
    requires forall f :: Holds(l, s'.threads[i], f) ==> Holds(l, s.threads[i], f)
    ensures Ordered(l, s')
  {
  }

  /** An increment raises an event later than all before. */
  lemma IncrKeepsOrdered(l: ServiceLimit, opening: int, s: State, s': State, i: nat)
    requires Good(l, opening, s) && Good(l, opening, s') && Ordered(l, s) && Increments(l, s, s', i)
    ensures Ordered(l, s')
  {
    forall j, e, f | 0 <= j < |s'.threads| && Holds(l, s'.threads[j], f) && e in s'.notified
      ensures Rank(e) < Rank(f)
    {
      if j == i {
        RaisedIsLater(l, opening, s, s', i, e, f);
      } else {
        assert s'.threads[j] == s.threads[j];
      }
    }
  }

  lemma RaisedIsLater(l: ServiceLimit, opening: int, s: State, s': State, i: nat, e: EventType, f: EventType)
    requires Good(l, opening, s) && Good(l, opening, s') && Increments(l, s, s', i)
    requires Holds(l, s'.threads[i], f) && e in s.notified
    ensures Rank(e) < Rank(f)
  {
    var x := s'.spends[|s.spends|];
    assert s'.spends[..|s.spends|] == s.spends && EventOf(l, x) == Some(f);
    NoUndercountIsChained(l, opening, s'.spends);
    EventsIncrease(l, opening, s'.spends);
    NotifiedWasRaised(l, opening, s, e);
    LastIsLater(Events(l, s.spends), f, e);
  }

  lemma LastIsLater(es: seq<EventType>, f: EventType, e: EventType)
    requires Increasing(es + [f]) && e in es
    ensures Rank(e) < Rank(f)
  {
    var k :| 0 <= k < |es| && es[k] == e;
    assert (es + [f])[k] == e && (es + [f])[|es|] == f;
  }

  /** A notification keeps the order exactly when it overtakes nobody. */
  lemma NotifyOrdersExactlyWhen(l: ServiceLimit, opening: int, s: State, s': State, i: nat, e: EventType)
    requires Good(l, opening, s) && Ordered(l, s) && i < |s.threads| == |s'.threads| && Holds(l, s.threads[i], e)
    requires s'.threads == s.threads[i := s'.threads[i]] && HeldEvents(l, s'.threads[i]) == []
    requires s'.notified == s.notified + [e]
    ensures Ordered(l, s') <==> !EarlierHeld(l, s.threads, i, e)
  {
    if EarlierHeld(l, s.threads, i, e) {
      var j, f :| 0 <= j < |s.threads| && j != i && Holds(l, s.threads[j], f) && Rank(f) < Rank(e);
      assert s'.notified[|s.notified|] == e;
      assert Holds(l, s'.threads[j], f);
    } else {
      NotifyKeepsOrdered(l, opening, s, s', i, e);
    }
  }

  /** Another thread than i holds an event before e. */
  predicate EarlierHeld(l: ServiceLimit, ts: seq<Thread>, i: nat, e: EventType) {
    exists j, f :: 0 <= j < |ts| && j != i && Holds(l, ts[j], f) && Rank(f) < Rank(e)
  }

  lemma NotifyKeepsOrdered(l: ServiceLimit, opening: int, s: State, s': State, i: nat, e: EventType)
    requires Good(l, opening, s) && Ordered(l, s) && i < |s.threads| == |s'.threads| && Holds(l, s.threads[i], e)
    requires s'.threads == s.threads[i := s'.threads[i]] && HeldEvents(l, s'.threads[i]) == []
    requires s'.notified == s.notified + [e] && !EarlierHeld(l, s.threads, i, e)
    ensures Ordered(l, s')
  {
    NotifiedWasRaised(l, opening, s, e);
    AppendIncreases(s.notified, e);
    forall j, d, f | 0 <= j < |s'.threads| && Holds(l, s'.threads[j], f) && d in s'.notified ensures Rank(d) < Rank(f) {
      assert j != i && s'.threads[j] == s.threads[j] && f != e;
      RanksDiffer(e, f);
    }
  }

  lemma RanksDiffer(e: EventType, f: EventType)
    ensures Rank(e) == Rank(f) <==> e == f
  {
  }

  /** What the return of a thread notifies. */
  lemma FinishNotifies(l: ServiceLimit, s: State, i: nat, notifies: bool)
    requires i < |s.threads| && s.threads[i].pc.Recorded?
    ensures var s' := Step(l, s, Finish(i, notifies));
      && |s'.threads| == |s.threads| && s'.threads == s.threads[i := s'.threads[i]]
      && HeldEvents(l, s'.threads[i]) == []
      && s'.notified == s.notified + (if notifies then HeldEvents(l, s.threads[i]) else [])
  {
    assert s.notified + [] == s.notified;
  }

  lemma RecordHolds(l: ServiceLimit, s: State, i: nat)
    requires i < |s.threads| && s.threads[i].pc.Incremented?
    ensures var s' := Step(l, s, Record(i));
      && |s'.threads| == |s.threads| && s'.threads == s.threads[i := s'.threads[i]]
      && HeldEvents(l, s'.threads[i]) == HeldEvents(l, s.threads[i]) && s'.notified == s.notified
  {
  }

  /** A step of a thread that does not return. */
  lemma OtherStepKeepsOrdered(l: ServiceLimit, opening: int, s: State, a: Action)
    requires Good(l, opening, s) && Good(l, opening, Step(l, s, a)) && Ordered(l, s)
    requires OfThread(a) && a.i < |s.threads| && Step(l, s, a) != s && !a.Finish?
    ensures Ordered(l, Step(l, s, a))
  {
    if QuietAction(a, s.threads[a.i].pc) {
      QuietStep(l, s, a);
      KeepsOrdered(l, s, Step(l, s, a), a.i);
    } else if a.Record? {
      RecordHolds(l, s, a.i);
      KeepsOrdered(l, s, Step(l, s, a), a.i);
    } else {
      IncrIncrements(l, s, a);
      IncrKeepsOrdered(l, opening, s, Step(l, s, a), a.i);
    }
  }

  lemma FinishOrdersExactlyWhen(l: ServiceLimit, opening: int, s: State, a: Action)
    requires Good(l, opening, s) && Ordered(l, s) && a.Finish? && a.i < |s.threads| && s.threads[a.i].pc.Recorded?
    ensures Ordered(l, Step(l, s, a)) <==> !Overtakes(l, s, a)
  {
    var s' := Step(l, s, a);
    var held := HeldEvents(l, s.threads[a.i]);
    FinishNotifies(l, s, a.i, a.notifies);
    if a.notifies && held != [] {
      assert Holds(l, s.threads[a.i], held[0]);
      NotifyOrdersExactlyWhen(l, opening, s, s', a.i, held[0]);
    } else {
      assert s.notified + [] == s.notified;
      KeepsOrdered(l, s, s', a.i);
    }
  }

  /** Order of notification, one calm step: it is kept exactly unless the step overtakes. */
  lemma OrderedExactlyWhen(l: ServiceLimit, opening: int, s: State, a: Action)
    requires Good(l, opening, s) && Charges(a) && CalmStep(l, s, a) && Ordered(l, s)
    ensures Ordered(l, Step(l, s, a)) <==> !Overtakes(l, s, a)
  {
    StepKeepsSteady(l, opening, s, a);
    if OfThread(a) && a.i < |s.threads| {
      if a.Finish? && s.threads[a.i].pc.Recorded? {
        FinishOrdersExactlyWhen(l, opening, s, a);
      } else if Step(l, s, a) != s {
        OtherStepKeepsOrdered(l, opening, s, a);
      }
    } else {
      StepMovesOneThread(l, s, a);
      assert Step(l, s, a).threads == s.threads;
    }
  }

  ghost predicate StaysOrdered(l: ServiceLimit, s: State, actions: seq<Action>)
    decreases |actions|
  {
    Ordered(l, s) && (actions != [] ==> StaysOrdered(l, Step(l, s, actions[0]), actions[1..]))
  }

  ghost predicate NoneOvertakes(l: ServiceLimit, s: State, actions: seq<Action>)
    decreases |actions|
  {
    actions != [] ==> !Overtakes(l, s, actions[0]) && NoneOvertakes(l, Step(l, s, actions[0]), actions[1..])
  }

  /** Order of notification over calm runs: it holds at every moment exactly if no step overtakes. */
  lemma {:induction false} RunIsOrderedExactlyWhen(l: ServiceLimit, opening: int, s: State, actions: seq<Action>)
    requires Good(l, opening, s) && AllCharge(actions) && Calm(l, s, actions) && Ordered(l, s)
    ensures StaysOrdered(l, s, actions) <==> NoneOvertakes(l, s, actions)
    decreases |actions|
  {
    if actions != [] {
      OrderedExactlyWhen(l, opening, s, actions[0]);
      if Ordered(l, Step(l, s, actions[0])) {
        StepKeepsSteady(l, opening, s, actions[0]);
        RunIsOrderedExactlyWhen(l, opening, Step(l, s, actions[0]), actions[1..]);
      }
    }
  }

  /** The step notifies an event after a later one was notified. */
  predicate Late(l: ServiceLimit, s: State, a: Action) {
    && a.Finish? && a.notifies && a.i < |s.threads| && s.threads[a.i].pc.Recorded?
    && exists d, e :: Holds(l, s.threads[a.i], e) && d in s.notified && Rank(e) < Rank(d)
  }

  ghost predicate NoneLate(l: ServiceLimit, s: State, actions: seq<Action>)
    decreases |actions|
  {
    actions != [] ==> !Late(l, s, actions[0]) && NoneLate(l, Step(l, s, actions[0]), actions[1..])
  }

  /** What a step adds to the notified events: the event held by a thread that returns and notifies. */
  lemma StepNotifies(l: ServiceLimit, s: State, a: Action)
    ensures Step(l, s, a).notified == s.notified +
      (if a.Finish? && a.notifies && a.i < |s.threads| && s.threads[a.i].pc.Recorded?
       then HeldEvents(l, s.threads[a.i]) else [])
  {
    assert s.notified + [] == s.notified;
    if a.Finish? && a.i < |s.threads| && s.threads[a.i].pc.Recorded? {
      FinishNotifies(l, s, a.i, a.notifies);
    } else {
      OthersNotifyNothing(l, s, a);
    }
  }

  lemma OthersNotifyNothing(l: ServiceLimit, s: State, a: Action)
    requires !(a.Finish? && a.i < |s.threads| && s.threads[a.i].pc.Recorded?)
    ensures Step(l, s, a).notified == s.notified
  {
  }

  /** A held event is not notified already. */
  lemma HeldIsNotNotified(l: ServiceLimit, opening: int, s: State, i: nat, e: EventType)
    requires Good(l, opening, s) && i < |s.threads| && Holds(l, s.threads[i], e)
    ensures e !in s.notified
  {
    CostsArePositive(s);
    CountsMembers(s.notified, e);
    CountsMembers(s.unnotified, e);
    HeldIsWeighed(l, s.threads[i], e);
    MeasureCovers(l, HeldEvent(e), s.threads, i);
    if opening < l.overMax {
      NoUndercountIsChained(l, opening, s.spends);
      FullEventsAtMostOnce(l, opening, s.spends, e);
    }
  }

  lemma AppendIncreases(es: seq<EventType>, e: EventType)
    requires Increasing(es)
    ensures Increasing(es + [e]) <==> forall d :: d in es ==> Rank(d) < Rank(e)
  {
    var longer := es + [e];
    if forall d :: d in es ==> Rank(d) < Rank(e) {
      assert forall i :: 0 <= i < |es| ==> longer[i] in es;
    } else {
      var d :| d in es && Rank(d) >= Rank(e);
      var i :| 0 <= i < |es| && es[i] == d;
      assert longer[i] == d && longer[|es|] == e;
    }
  }

  lemma StepIncreasesExactlyWhen(l: ServiceLimit, opening: int, s: State, a: Action)
    requires Good(l, opening, s) && Increasing(s.notified)
    ensures Increasing(Step(l, s, a).notified) <==> !Late(l, s, a)
  {
    StepNotifies(l, s, a);
    if a.Finish? && a.notifies && a.i < |s.threads| && s.threads[a.i].pc.Recorded? && HeldEvents(l, s.threads[a.i]) != [] {
      var e := HeldEvents(l, s.threads[a.i])[0];
      assert Holds(l, s.threads[a.i], e);
      HeldIsNotNotified(l, opening, s, a.i, e);
      AppendIncreases(s.notified, e);
      forall d | d in s.notified ensures Rank(d) != Rank(e) {
        RanksDiffer(d, e);
      }
    } else {
      assert s.notified + [] == s.notified;
    }
  }

  /** Once out of order, the notified events stay so. */
  lemma {:induction false} DisorderStays(l: ServiceLimit, s: State, actions: seq<Action>)
    requires !Increasing(s.notified)
    ensures !Increasing(Exec(l, s, actions).notified)
    decreases |actions|
  {
    if actions != [] {
      StepNotifies(l, s, actions[0]);
      var i, j :| 0 <= i < j < |s.notified| && Rank(s.notified[i]) >= Rank(s.notified[j]);
      var more := Step(l, s, actions[0]).notified;
      assert more[i] == s.notified[i] && more[j] == s.notified[j];
      DisorderStays(l, Step(l, s, actions[0]), actions[1..]);
    }
  }

  lemma {:induction false} RunIncreasesExactlyWhen(l: ServiceLimit, opening: int, s: State, actions: seq<Action>)
    requires Good(l, opening, s) && AllCharge(actions) && Calm(l, s, actions) && Increasing(s.notified)
    ensures Increasing(Exec(l, s, actions).notified) <==> NoneLate(l, s, actions)
    decreases |actions|
  {
    if actions != [] {
      StepIncreasesExactlyWhen(l, opening, s, actions[0]);
      if Late(l, s, actions[0]) {
        DisorderStays(l, Step(l, s, actions[0]), actions[1..]);
      } else {
        StepKeepsSteady(l, opening, s, actions[0]);
        RunIncreasesExactlyWhen(l, opening, Step(l, s, actions[0]), actions[1..]);
      }
    }
  }

  /** xs is ys without some of its elements. */
  predicate Subsequence(xs: seq<EventType>, ys: seq<EventType>)
    decreases |ys|
  {
    xs == [] ||
    (ys != [] &&
     var rest := ys[..|ys| - 1];
     Subsequence(xs, rest) || (xs[|xs| - 1] == ys[|ys| - 1] && Subsequence(xs[..|xs| - 1], rest)))
  }

  lemma {:induction false} SubsequenceIncreases(xs: seq<EventType>, ys: seq<EventType>)
    requires Subsequence(xs, ys) && Increasing(ys)
    ensures Increasing(xs) && forall e :: e in xs ==> e in ys
    decreases |ys|
  {
    if xs != [] {
      var rest, x := ys[..|ys| - 1], xs[|xs| - 1];
      if Subsequence(xs, rest) {
        SubsequenceIncreases(xs, rest);
      } else {
        SubsequenceIncreases(xs[..|xs| - 1], rest);
        assert ys == rest + [x] && xs == xs[..|xs| - 1] + [x];
        AppendIncreases(rest, x);
        AppendIncreases(xs[..|xs| - 1], x);
      }
    }
  }

  /** Without its last element y, an increasing sequence still has what comes before x, and x too
      unless x is y. */
  lemma MembersBefore(before: seq<EventType>, x: EventType, rest: seq<EventType>, y: EventType)
    requires Increasing(before + [x]) && Increasing(rest + [y]) && forall e :: e in before + [x] ==> e in rest + [y]
    ensures Increasing(before) && Increasing(rest)
    ensures forall e :: e in before ==> e in rest
    ensures x != y ==> x in rest
  {
    assert before == (before + [x])[..|before|] && rest == (rest + [y])[..|rest|];
    AppendIncreases(before, x);
    AppendIncreases(rest, y);
    assert x in before + [x];
    forall e | e in before ensures e in rest {
      assert e in before + [x] && Rank(e) < Rank(x);
    }
  }

  lemma {:induction false} IncreasingIsSubsequence(xs: seq<EventType>, ys: seq<EventType>)
    requires Increasing(xs) && Increasing(ys) && forall e :: e in xs ==> e in ys
    ensures Subsequence(xs, ys)
    decreases |ys|
  {
    if xs != [] {
      var x, before := xs[|xs| - 1], xs[..|xs| - 1];
      assert x in xs;
      var y, rest := ys[|ys| - 1], ys[..|ys| - 1];
      assert xs == before + [x] && ys == rest + [y];
      MembersBefore(before, x, rest, y);
      if x == y {
        IncreasingIsSubsequence(before, rest);
      } else {
        IncreasingIsSubsequence(xs, rest);
      }
      SubsequenceGrows(before, x, rest, y);
    }
  }

  lemma SubsequenceGrows(before: seq<EventType>, x: EventType, rest: seq<EventType>, y: EventType)
    requires Subsequence(before + [x], rest) || (x == y && Subsequence(before, rest))
    ensures Subsequence(before + [x], rest + [y])
  {
    assert (before + [x])[..|before|] == before && (rest + [y])[..|rest|] == rest;
  }

  /** The notified events of a calm run are a subsequence of the raised ones exactly if no step
      notifies late; and none does unless one has overtaken. */
  lemma NotifiedIsASubsequenceExactlyWhen(l: ServiceLimit, s: State, actions: seq<Action>)
    requires Valid(l) && Init(s) && AllCharge(actions) && Calm(l, s, actions)
    ensures Subsequence(Exec(l, s, actions).notified, Events(l, Exec(l, s, actions).spends)) <==> NoneLate(l, s, actions)
    ensures NoneOvertakes(l, s, actions) ==> NoneLate(l, s, actions)
  {
    var t := Exec(l, s, actions);
    InitIsSteady(l, s);
    EventOrder(l, s, actions);
    RunIncreasesExactlyWhen(l, Ledger(s), s, actions);
    if Increasing(t.notified) {
      IncreasingIsSubsequence(t.notified, Events(l, t.spends));
    } else if Subsequence(t.notified, Events(l, t.spends)) {
      SubsequenceIncreases(t.notified, Events(l, t.spends));
    }
    RunIsOrderedExactlyWhen(l, Ledger(s), s, actions);
    if NoneOvertakes(l, s, actions) {
      OrderedAtTheEnd(l, s, actions);
    }
  }

  lemma {:induction false} OrderedAtTheEnd(l: ServiceLimit, s: State, actions: seq<Action>)
    requires StaysOrdered(l, s, actions)
    ensures Ordered(l, Exec(l, s, actions))
    decreases |actions|
  {
    if actions != [] {
      OrderedAtTheEnd(l, Step(l, s, actions[0]), actions[1..]);
    }
  }

  /** Limits whose two free thresholds are one unit apart. */
  const TIGHT: ServiceLimit := ServiceLimit(1, 1, 2, 0, 10)

  function OneUnit(): Request {
    Request(0, Entry(Instant(0), Project(0)), 1)
  }

  lemma EnsureLeads(l: ServiceLimit, s: State, i: nat, req: Request) returns (t: State)
    requires Free(s, i) && req.process < |s.pipe.procs| && req.cost > 0 && s.cell.None? && Ledger(s) < l.overMax
    ensures Leads(l, s, t) && t.threads == s.threads[i := Thread(req, Checked)] && t.cell == Some(Ledger(s))
    ensures t.pipe == s.pipe && t.spends == s.spends && t.notified == s.notified
  {
    t := EnsureThen(l, s, i, req, []);
    var actions := EnsureActions(s.cell, i, req) + [];
    assert ByThreads(actions) && Exec(l, s, actions) == t;
  }

  lemma CheckedIncrLeads(l: ServiceLimit, s: State, i: nat) returns (t: State)
    requires i < |s.threads| && s.threads[i].pc.Checked? && Live(s) && s.cell.value < l.overMax
    ensures var total := s.cell.value + s.threads[i].req.cost;
      && Leads(l, s, t) && t.threads == s.threads[i := s.threads[i].(pc := Incremented(total))] && t.cell == Some(total)
      && Grown(s.spends, t.spends, s.threads[i].req.cost, total) && t.pipe == s.pipe && t.notified == s.notified
  {
    t := IncrRun(l, s, i, []);
    var actions := [Get(i), Incr(i)] + [];
    assert ByThreads(actions) && Exec(l, s, actions) == t;
  }

  lemma RecordLeads(l: ServiceLimit, s: State, i: nat) returns (t: State)
    requires i < |s.threads| && s.threads[i].pc.Incremented?
    ensures Leads(l, s, t) && t.threads == s.threads[i := s.threads[i].(pc := Recorded(s.threads[i].pc.total))]
    ensures t.cell == s.cell && t.spends == s.spends && t.notified == s.notified && |t.pipe.procs| == |s.pipe.procs|
  {
    t := Step(l, s, Action.Record(i));
    StepLeads(l, s, Action.Record(i));
  }

  lemma FinishLeads(l: ServiceLimit, s: State, i: nat) returns (t: State)
    requires i < |s.threads| && s.threads[i].pc.Recorded?
    ensures Leads(l, s, t) && t.spends == s.spends && t.notified == s.notified + HeldEvents(l, s.threads[i])
  {
    t := Step(l, s, Finish(i, true));
    StepLeads(l, s, Finish(i, true));
    FinishNotifies(l, s, i, true);
  }

  /** Thread 0 has recorded its credit, and holds the first event. */
  lemma FirstCall(s: State) returns (t: State)
    requires s == Blank(2)
    ensures Leads(TIGHT, s, t) && |t.threads| == 2 && |t.pipe.procs| == 1
    ensures t.threads[0] == Thread(OneUnit(), Recorded(1)) && t.threads[1].pc.Idle?
    ensures t.cell == Some(1) && t.notified == [] && Grown([], t.spends, 1, 1)
  {
    var u := EnsureLeads(TIGHT, s, 0, OneUnit());
    var v := CheckedIncrLeads(TIGHT, u, 0);
    LeadsOn(TIGHT, s, u, v);
    t := RecordLeads(TIGHT, v, 0);
    LeadsOn(TIGHT, s, v, t);
  }

  /** Thread 1 makes its whole call, and then thread 0 returns. */
  lemma SecondCall(t: State) returns (v: State)
    requires |t.threads| == 2 && |t.pipe.procs| == 1 && t.threads[1].pc.Idle?
    requires t.threads[0] == Thread(OneUnit(), Recorded(1))
    requires t.cell == Some(1) && t.notified == [] && Grown([], t.spends, 1, 1)
    ensures Leads(TIGHT, t, v) && v.notified == [FreeMax, FreeWarn] && Grown(t.spends, v.spends, 1, 2)
  {
    var u := AloneLeads(TIGHT, t, 1, OneUnit());
    assert u.threads[0] == t.threads[0];
    v := FinishLeads(TIGHT, u, 0);
    LeadsOn(TIGHT, t, u, v);
  }

  lemma {:induction false} TwoEvents(xs: seq<Spend>)
    requires |xs| == 2 && xs[0].cost == xs[0].total == xs[1].cost == 1 && xs[1].total == 2
    ensures Events(TIGHT, xs) == [FreeWarn, FreeMax]
  {
    assert xs[..1] == [xs[0]] && Events(TIGHT, [xs[0]]) == [FreeWarn];
  }

  /** A calm run after which these are the events raised and notified. */
  ghost predicate CanNotify(l: ServiceLimit, s: State, raised: seq<EventType>, notified: seq<EventType>) {
    exists actions :: AllCharge(actions) && Calm(l, s, actions) && Tells(l, Exec(l, s, actions), raised, notified)
  }

  ghost predicate Tells(l: ServiceLimit, t: State, raised: seq<EventType>, notified: seq<EventType>) {
    Events(l, t.spends) == raised && t.notified == notified
  }

  /** Two calls of one unit, of which the first raises its event first and notifies it last. */
  lemma CallsOvertake()
    ensures Valid(TIGHT) && Init(Blank(2)) && CanNotify(TIGHT, Blank(2), [FreeWarn, FreeMax], [FreeMax, FreeWarn])
  {
    var s := Blank(2);
    var t := FirstCall(s);
    var v := SecondCall(t);
    LeadsOn(TIGHT, s, t, v);
    TwoEvents(v.spends);
    var actions :| ByThreads(actions) && Exec(TIGHT, s, actions) == v;
    ThreadsAreCalm(TIGHT, s, actions);
  }
}
