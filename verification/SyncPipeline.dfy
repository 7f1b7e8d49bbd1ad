/** The usage trackers of the client processes and their syncs into the ledger, as atomic steps.
    A sync swaps the buffer out, pushes its entries one by one and adds the refused ones back,
    while other goroutines keep recording. */
module SyncPipeline {
  import opened Amounts

  /** The buffer of one client process, the entries its running sync has yet to push, and the
      entries the updater reported as refused that are yet to be added back. */
  datatype Process = Process(tracker: Bag, pushing: Bag, refused: Bag)

  /** `lost`: usage neither stored nor added back. `doubled`: usage stored and yet reported as
      refused. `recorded`: everything ever recorded by the trackers. */
  datatype Pipeline = Pipeline(procs: seq<Process>, ledger: Bag, lost: Bag, doubled: Bag, recorded: Bag)

  /** What happens to one pushed entry: what the ledger does, and what the reply says. */
  datatype Outcome =
    | Inserted              // stored and reported as true
    | Refused               // not stored and reported as false
    | Omitted               // not stored and missing from the reply, or the reply is missing
    | InsertedUnreported    // stored, but the reply is missing
    | InsertedThenRefused   // stored and reported as false: an updater must not do this

  datatype Action =
    | Record(p: nat, e: Entry, amount: int)
    | Swap(p: nat)
    | Push(p: nat, e: Entry, outcome: Outcome)
    | AddBack(p: nat, e: Entry)

  /** One step; an action that is not possible changes nothing. */
  function Step(s: Pipeline, a: Action): Pipeline {
    if a.p >= |s.procs| then s else
    var q := s.procs[a.p];
    match a
    case Record(p, e, v) =>
      s.(procs := s.procs[p := q.(tracker := Add(q.tracker, e, v))], recorded := Add(s.recorded, e, v))
    case Swap(p) =>
      // The sync mutex: no second sync starts before the first has pushed and added back everything.
      if q.pushing != map[] || q.refused != map[] then s
      else s.(procs := s.procs[p := Process(map[], q.tracker, map[])])
    case Push(p, e, outcome) =>
      if e !in q.pushing then s
      else
        var v := q.pushing[e];
        var refused := outcome.Refused? || outcome.InsertedThenRefused?;
        var q' := q.(pushing := q.pushing - {e},
                     refused := if refused then Add(q.refused, e, v) else q.refused);
        s.(procs := s.procs[p := q'],
           ledger := if outcome.Refused? || outcome.Omitted? then s.ledger else Add(s.ledger, e, v),
           lost := if outcome.Omitted? then Add(s.lost, e, v) else s.lost,
           doubled := if outcome.InsertedThenRefused? then Add(s.doubled, e, v) else s.doubled)
    case AddBack(p, e) =>
      if e !in q.refused then s
      else
        var q' := q.(refused := q.refused - {e}, tracker := Add(q.tracker, e, q.refused[e]));
        s.(procs := s.procs[p := q'])
  }

  function Exec(s: Pipeline, actions: seq<Action>): Pipeline
    decreases |actions|
  {
    if actions == [] then s else Exec(Step(s, actions[0]), actions[1..])
  }

  ghost function Held(scope: Scope, q: Process): int {
    Total(scope, q.tracker) + Total(scope, q.pushing) + Total(scope, q.refused)
  }

  /** Usage that some process still has to bring to the ledger. */
  ghost function OnHand(scope: Scope, procs: seq<Process>): int {
    if procs == [] then 0 else Held(scope, procs[0]) + OnHand(scope, procs[1..])
  }

  /** Where the recorded usage is. */
  ghost function Traced(scope: Scope, s: Pipeline): int {
    Total(scope, s.ledger) + OnHand(scope, s.procs) + Total(scope, s.lost) - Total(scope, s.doubled)
  }

  predicate SoundProcess(q: Process) {
    NonNegative(q.tracker) && NonNegative(q.pushing) && NonNegative(q.refused)
  }

  /** No negative amount anywhere. */
  predicate Sound(s: Pipeline) {
    && (forall i :: 0 <= i < |s.procs| ==> SoundProcess(s.procs[i]))
    && NonNegative(s.ledger) && NonNegative(s.lost) && NonNegative(s.doubled) && NonNegative(s.recorded)
  }

  predicate SoundAction(a: Action) {
    a.Record? ==> a.amount >= 0
  }

  /** The updater reports false only for entries it did not insert. */
  predicate Honest(a: Action) {
    a.Push? ==> !a.outcome.InsertedThenRefused?
  }

  lemma {:induction false} OnHandUpdate(scope: Scope, procs: seq<Process>, p: nat, q: Process)
    requires p < |procs|
    ensures OnHand(scope, procs[p := q]) == OnHand(scope, procs) - Held(scope, procs[p]) + Held(scope, q)
  {
    if p > 0 {
      OnHandUpdate(scope, procs[1..], p - 1, q);
      assert procs[p := q][1..] == procs[1..][p - 1 := q];
    } else {
      assert procs[p := q][1..] == procs[1..];
    }
  }

  lemma {:induction false} OnHandNonNegative(scope: Scope, procs: seq<Process>)
    requires forall i :: 0 <= i < |procs| ==> SoundProcess(procs[i])
    ensures OnHand(scope, procs) >= 0
  {
    if procs != [] {
      TotalNonNegative(scope, procs[0].tracker);
      TotalNonNegative(scope, procs[0].pushing);
      TotalNonNegative(scope, procs[0].refused);
      OnHandNonNegative(scope, procs[1..]);
    }
  }

  function Recording(scope: Scope, s: Pipeline, a: Action): int {
    if a.Record? && a.p < |s.procs| then Share(scope, a.e, a.amount) else 0
  }

  lemma RecordKeepsTrace(scope: Scope, s: Pipeline, p: nat, e: Entry, v: int)
    requires p < |s.procs|
    ensures Traced(scope, Step(s, Record(p, e, v))) == Traced(scope, s) + Share(scope, e, v)
  {
    var q := s.procs[p];
    OnHandUpdate(scope, s.procs, p, q.(tracker := Add(q.tracker, e, v)));
    TotalAdd(scope, q.tracker, e, v);
  }

  lemma PushKeepsTrace(scope: Scope, s: Pipeline, p: nat, e: Entry, outcome: Outcome)
    requires p < |s.procs| && e in s.procs[p].pushing
    ensures Traced(scope, Step(s, Push(p, e, outcome))) == Traced(scope, s)
  {
    var q := s.procs[p];
    var v := q.pushing[e];
    OnHandUpdate(scope, s.procs, p, Step(s, Push(p, e, outcome)).procs[p]);
    TotalRemove(scope, q.pushing, e);
    match outcome
    case Inserted => TotalAdd(scope, s.ledger, e, v);
    case Refused => TotalAdd(scope, q.refused, e, v);
    case Omitted => TotalAdd(scope, s.lost, e, v);
    case InsertedUnreported => TotalAdd(scope, s.ledger, e, v);
    case InsertedThenRefused =>
      TotalAdd(scope, s.ledger, e, v);
      TotalAdd(scope, q.refused, e, v);
      TotalAdd(scope, s.doubled, e, v);
  }

  lemma AddBackKeepsTrace(scope: Scope, s: Pipeline, p: nat, e: Entry)
    requires p < |s.procs| && e in s.procs[p].refused
    ensures Traced(scope, Step(s, AddBack(p, e))) == Traced(scope, s)
  {
    var q := s.procs[p];
    OnHandUpdate(scope, s.procs, p, Step(s, AddBack(p, e)).procs[p]);
    TotalRemove(scope, q.refused, e);
    TotalAdd(scope, q.tracker, e, q.refused[e]);
  }

  /** A step moves usage around; only recording adds to it. In every scope: in total, per
      timestamp, per owner and per single entry. */
  lemma StepKeepsTrace(scope: Scope, s: Pipeline, a: Action)
    ensures Traced(scope, Step(s, a)) == Traced(scope, s) + Recording(scope, s, a)
    ensures Total(scope, Step(s, a).recorded) == Total(scope, s.recorded) + Recording(scope, s, a)
    ensures |Step(s, a).procs| == |s.procs|
  {
    if a.p < |s.procs| {
      match a
      case Record(p, e, v) =>
        RecordKeepsTrace(scope, s, p, e, v);
        TotalAdd(scope, s.recorded, e, v);
      case Swap(p) =>
        OnHandUpdate(scope, s.procs, p, Process(map[], s.procs[p].tracker, map[]));
      case Push(p, e, outcome) =>
        if e in s.procs[p].pushing {
          PushKeepsTrace(scope, s, p, e, outcome);
        }
      case AddBack(p, e) =>
        if e in s.procs[p].refused {
          AddBackKeepsTrace(scope, s, p, e);
        }
    }
  }

  lemma StepKeepsSound(s: Pipeline, a: Action)
    requires Sound(s) && SoundAction(a)
    ensures Sound(Step(s, a))
    ensures Honest(a) ==> Step(s, a).doubled == s.doubled
  {
    if a.p < |s.procs| {
      StepKeepsProcess(s, a);
      StepKeepsBags(s, a);
      var procs := Step(s, a).procs;
      assert forall i :: 0 <= i < |procs| && i != a.p ==> procs[i] == s.procs[i];
    }
  }

  lemma StepKeepsProcess(s: Pipeline, a: Action)
    requires a.p < |s.procs| && SoundProcess(s.procs[a.p]) && SoundAction(a)
    ensures |Step(s, a).procs| == |s.procs| && SoundProcess(Step(s, a).procs[a.p])
  {
  }

  lemma StepKeepsBags(s: Pipeline, a: Action)
    requires a.p < |s.procs| && NonNegative(s.procs[a.p].pushing) && SoundAction(a)
    requires NonNegative(s.ledger) && NonNegative(s.lost) && NonNegative(s.doubled) && NonNegative(s.recorded)
    ensures var t := Step(s, a);
      NonNegative(t.ledger) && NonNegative(t.lost) && NonNegative(t.doubled) && NonNegative(t.recorded)
  {
  }

  /** The ledger never shrinks. */
  lemma LedgerGrows(scope: Scope, s: Pipeline, a: Action)
    requires Sound(s)
    ensures Total(scope, Step(s, a).ledger) >= Total(scope, s.ledger)
  {
    if a.Push? && a.p < |s.procs| && a.e in s.procs[a.p].pushing {
      assert SoundProcess(s.procs[a.p]);
      TotalAdd(scope, s.ledger, a.e, s.procs[a.p].pushing[a.e]);
    }
  }

  /** Sync conservation over every run: stored + pending + in flight + unreported = what was stored
      at the start + what was recorded since + what an updater stored and yet refused. */
  lemma {:induction false} SyncConservation(scope: Scope, s: Pipeline, actions: seq<Action>)
    ensures var t := Exec(s, actions);
      Total(scope, t.ledger) + OnHand(scope, t.procs) + Total(scope, t.lost) - Total(scope, t.doubled)
      - Total(scope, t.recorded) == Traced(scope, s) - Total(scope, s.recorded)
    decreases |actions|
  {
    if actions != [] {
      StepKeepsTrace(scope, s, actions[0]);
      SyncConservation(scope, Step(s, actions[0]), actions[1..]);
    }
  }

  lemma {:induction false} ExecKeepsSound(s: Pipeline, actions: seq<Action>)
    requires Sound(s)
    requires forall i :: 0 <= i < |actions| ==> SoundAction(actions[i])
    ensures Sound(Exec(s, actions))
    ensures (forall i :: 0 <= i < |actions| ==> Honest(actions[i])) ==> Exec(s, actions).doubled == s.doubled
    decreases |actions|
  {
    if actions != [] {
      StepKeepsSound(s, actions[0]);
      ExecKeepsSound(Step(s, actions[0]), actions[1..]);
    }
  }

  predicate Fresh(s: Pipeline) {
    && (forall i :: 0 <= i < |s.procs| ==> s.procs[i] == Process(map[], map[], map[]))
    && NonNegative(s.ledger) && s.lost == s.doubled == s.recorded == map[]
  }

  lemma {:induction false} FreshHoldsNothing(scope: Scope, procs: seq<Process>)
    requires forall i :: 0 <= i < |procs| ==> procs[i] == Process(map[], map[], map[])
    ensures OnHand(scope, procs) == 0
  {
    if procs != [] {
      FreshHoldsNothing(scope, procs[1..]);
    }
  }

  /** At-most-once billing, entry by entry: an honest updater never stores more than was recorded,
      over any sequence of syncs, failures, retries and missing replies. */
  lemma AtMostOnceBilling(s: Pipeline, actions: seq<Action>, e: Entry)
    requires Fresh(s)
    requires forall i :: 0 <= i < |actions| ==> SoundAction(actions[i]) && Honest(actions[i])
    ensures var t := Exec(s, actions);
      Amount(s.ledger, e) <= Amount(t.ledger, e) + OnHand(Only(e), t.procs) + Amount(t.lost, e)
      == Amount(s.ledger, e) + Amount(t.recorded, e)
    ensures Amount(Exec(s, actions).ledger, e) <= Amount(s.ledger, e) + Amount(Exec(s, actions).recorded, e)
  {
    var t := Exec(s, actions);
    ExecKeepsSound(s, actions);
    SyncConservation(Only(e), s, actions);
    FreshHoldsNothing(Only(e), s.procs);
    OnHandNonNegative(Only(e), t.procs);
    TotalOfOne(s.ledger, e);
    TotalOfOne(t.ledger, e);
    TotalOfOne(t.lost, e);
    TotalOfOne(t.recorded, e);
  }

  /** The honesty of the updater is needed: stored, reported as refused, added back and pushed
      again, the same usage is stored twice. */
  lemma RefusedAfterInsertBillsTwice(e: Entry, v: int)
    requires v > 0
    ensures
      var s := Pipeline([Process(map[], map[], map[])], map[], map[], map[], map[]);
      var actions := [Record(0, e, v), Swap(0), Push(0, e, InsertedThenRefused), AddBack(0, e),
                      Swap(0), Push(0, e, Inserted)];
      && Fresh(s)
      && Amount(Exec(s, actions).recorded, e) == v
      && Amount(Exec(s, actions).ledger, e) == 2 * v
  {
    var s := Pipeline([Process(map[], map[], map[])], map[], map[], map[], map[]);
    var b := map[e := v];
    var pushed := Pipeline([Process(map[], map[], b)], b, map[], b, b);
    var back := Pipeline([Process(b, map[], map[])], b, map[], b, b);
    var rest := [AddBack(0, e), Swap(0), Push(0, e, Inserted)];
    ExecThree(s, Record(0, e, v), Swap(0), Push(0, e, InsertedThenRefused), rest);
    ExecThree(pushed, AddBack(0, e), Swap(0), Push(0, e, Inserted), []);
    assert Step(Step(s, Record(0, e, v)), Swap(0)) == Pipeline([Process(map[], b, map[])], map[], map[], map[], b);
    assert Step(Step(Step(s, Record(0, e, v)), Swap(0)), Push(0, e, InsertedThenRefused)) == pushed;
    assert Step(pushed, AddBack(0, e)) == back;
    assert Step(back, Swap(0)) == Pipeline([Process(map[], b, map[])], b, map[], b, b);
    assert rest + [] == rest == [AddBack(0, e), Swap(0), Push(0, e, Inserted)];
    assert [Record(0, e, v), Swap(0), Push(0, e, InsertedThenRefused)] + rest
        == [Record(0, e, v), Swap(0), Push(0, e, InsertedThenRefused), AddBack(0, e), Swap(0), Push(0, e, Inserted)];
  }

  lemma ExecThree(s: Pipeline, a: Action, b: Action, c: Action, rest: seq<Action>)
    ensures Exec(s, [a, b, c] + rest) == Exec(Step(Step(Step(s, a), b), c), rest)
  {
    ExecOne(s, a, [b, c] + rest);
    ExecOne(Step(s, a), b, [c] + rest);
    ExecOne(Step(Step(s, a), b), c, rest);
    assert [a, b, c] + rest == [a] + ([b, c] + rest) && [b, c] + rest == [b] + ([c] + rest);
  }

  lemma ExecOne(s: Pipeline, a: Action, rest: seq<Action>)
    ensures Exec(s, [a] + rest) == Exec(Step(s, a), rest)
  {
    assert ([a] + rest)[1..] == rest;
  }
}
