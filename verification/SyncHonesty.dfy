/** Exactly which replies of the updater let an entry be billed more than once. */
module SyncHonesty {
  import opened Amounts
  import opened SyncPipeline

  predicate HonestActions(actions: seq<Action>) {
    forall k :: 0 <= k < |actions| ==> SoundAction(actions[k]) && Honest(actions[k])
  }

  /** The ledger holds more of e than was there at the opening and has been recorded since. */
  predicate Overbilled(opening: Pipeline, s: Pipeline, e: Entry) {
    Amount(s.ledger, e) > Amount(opening.ledger, e) + Amount(s.recorded, e)
  }

  /** From s an honest continuation overbills e. */
  ghost predicate CanOverbill(opening: Pipeline, s: Pipeline, e: Entry) {
    exists actions :: HonestActions(actions) && Overbilled(opening, Exec(s, actions), e)
  }

  ghost predicate Leads(s: Pipeline, t: Pipeline) {
    exists actions :: HonestActions(actions) && Exec(s, actions) == t
  }

  lemma LeadsNowhere(s: Pipeline)
    ensures Leads(s, s)
  {
    assert HonestActions([]) && Exec(s, []) == s;
  }

  lemma LeadsBy(s: Pipeline, a: Action, t: Pipeline)
    requires SoundAction(a) && Honest(a) && Leads(Step(s, a), t)
    ensures Leads(s, t)
  {
    var actions :| HonestActions(actions) && Exec(Step(s, a), actions) == t;
    ExecOne(s, a, actions);
    assert HonestActions([a] + actions);
  }

  lemma {:induction false} ExecAppend(s: Pipeline, xs: seq<Action>, ys: seq<Action>)
    ensures Exec(s, xs + ys) == Exec(Exec(s, xs), ys)
    decreases |xs|
  {
    if xs == [] {
      assert xs + ys == ys;
    } else {
      assert (xs + ys)[1..] == xs[1..] + ys;
      ExecAppend(Step(s, xs[0]), xs[1..], ys);
    }
  }

  lemma LeadsOn(s: Pipeline, u: Pipeline, t: Pipeline)
    requires Leads(s, u) && Leads(u, t)
    ensures Leads(s, t)
  {
    var xs :| HonestActions(xs) && Exec(s, xs) == u;
    var ys :| HonestActions(ys) && Exec(u, ys) == t;
    ExecAppend(s, xs, ys);
    assert HonestActions(xs + ys);
  }

  /** Only process p has changed, and nothing was recorded, lost or doubled. */
  predicate Works(s: Pipeline, t: Pipeline, p: nat) {
    && p < |s.procs| == |t.procs| && t.procs == s.procs[p := t.procs[p]]
    && t.lost == s.lost && t.doubled == s.doubled && t.recorded == s.recorded
  }

  lemma {:induction false} PushAll(s: Pipeline, p: nat) returns (t: Pipeline)
    requires p < |s.procs|
    ensures Leads(s, t) && Works(s, t, p)
    ensures t.procs[p] == s.procs[p].(pushing := map[])
    decreases |s.procs[p].pushing|
  {
    if s.procs[p].pushing == map[] {
      LeadsNowhere(s);
      return s;
    }
    var e :| e in s.procs[p].pushing;
    var u := Step(s, Push(p, e, Inserted));
    assert u.procs[p] == s.procs[p].(pushing := s.procs[p].pushing - {e});
    t := PushAll(u, p);
    LeadsBy(s, Push(p, e, Inserted), t);
  }

  lemma {:induction false} AddBackAll(s: Pipeline, p: nat) returns (t: Pipeline)
    requires p < |s.procs|
    ensures Leads(s, t) && Works(s, t, p)
    ensures t.procs[p].refused == map[] && t.procs[p].pushing == s.procs[p].pushing
    decreases |s.procs[p].refused|
  {
    if s.procs[p].refused == map[] {
      LeadsNowhere(s);
      return s;
    }
    var e :| e in s.procs[p].refused;
    var u := Step(s, AddBack(p, e));
    assert u.procs[p].refused == s.procs[p].refused - {e};
    t := AddBackAll(u, p);
    LeadsBy(s, AddBack(p, e), t);
  }

  /** A process can end its sync and run another one, which brings all it has to the ledger. */
  lemma Drain(s: Pipeline, p: nat) returns (t: Pipeline)
    requires p < |s.procs|
    ensures Leads(s, t) && Works(s, t, p) && t.procs[p] == Process(map[], map[], map[])
  {
    var u := PushAll(s, p);
    var v := AddBackAll(u, p);
    LeadsOn(s, u, v);
    var w := Step(v, Swap(p));
    t := PushAll(w, p);
    LeadsBy(v, Swap(p), t);
    LeadsOn(s, v, t);
  }

  lemma {:induction false} DrainFrom(s: Pipeline, p: nat) returns (t: Pipeline)
    requires p <= |s.procs| && forall q :: 0 <= q < p ==> s.procs[q] == Process(map[], map[], map[])
    ensures Leads(s, t) && |t.procs| == |s.procs|
    ensures forall q :: 0 <= q < |t.procs| ==> t.procs[q] == Process(map[], map[], map[])
    ensures t.lost == s.lost && t.doubled == s.doubled && t.recorded == s.recorded
    decreases |s.procs| - p
  {
    if p == |s.procs| {
      LeadsNowhere(s);
      return s;
    }
    var u := Drain(s, p);
    t := DrainFrom(u, p + 1);
    LeadsOn(s, u, t);
  }

  /** The balance of one entry after any run from a fresh pipeline. */
  lemma Balance(s: Pipeline, actions: seq<Action>, e: Entry)
    requires Fresh(s)
    ensures var t := Exec(s, actions);
      Amount(t.ledger, e) + OnHand(Only(e), t.procs) + Amount(t.lost, e) - Amount(t.doubled, e)
      == Amount(s.ledger, e) + Amount(t.recorded, e)
  {
    var t := Exec(s, actions);
    SyncConservation(Only(e), s, actions);
    FreshHoldsNothing(Only(e), s.procs);
    TotalOfOne(s.ledger, e);
    TotalOfOne(s.lost, e);
    TotalOfOne(s.doubled, e);
    TotalOfOne(s.recorded, e);
    TotalOfOne(t.ledger, e);
    TotalOfOne(t.lost, e);
    TotalOfOne(t.doubled, e);
    TotalOfOne(t.recorded, e);
  }

  lemma LostGrows(s: Pipeline, a: Action, e: Entry)
    requires Sound(s)
    ensures Amount(Step(s, a).lost, e) >= Amount(s.lost, e)
  {
    if a.p < |s.procs| {
      assert SoundProcess(s.procs[a.p]);
    }
  }

  lemma {:induction false} HonestRunsKeep(s: Pipeline, actions: seq<Action>, e: Entry)
    requires Sound(s) && HonestActions(actions)
    ensures Sound(Exec(s, actions)) && Exec(s, actions).doubled == s.doubled
    ensures Amount(Exec(s, actions).lost, e) >= Amount(s.lost, e)
    decreases |actions|
  {
    if actions != [] {
      StepKeepsSound(s, actions[0]);
      LostGrows(s, actions[0], e);
      HonestRunsKeep(Step(s, actions[0]), actions[1..], e);
    }
  }

  /** Billing at most once, exactly: after any run, whatever the updater has replied, an honest
      continuation stores more of an entry than was recorded exactly if more of it has been stored
      and yet reported as refused than has been lost. */
  lemma OverbillsExactlyWhen(opening: Pipeline, actions: seq<Action>, e: Entry)
    requires Fresh(opening) && forall k :: 0 <= k < |actions| ==> SoundAction(actions[k])
    ensures var s := Exec(opening, actions);
      CanOverbill(opening, s, e) <==> Amount(s.doubled, e) > Amount(s.lost, e)
  {
    var s := Exec(opening, actions);
    ExecKeepsSound(opening, actions);
    if Amount(s.doubled, e) > Amount(s.lost, e) {
      var t := DrainFrom(s, 0);
      var more :| HonestActions(more) && Exec(s, more) == t;
      ExecAppend(opening, actions, more);
      Balance(opening, actions + more, e);
      FreshHoldsNothing(Only(e), t.procs);
    } else {
      forall more | HonestActions(more) ensures !Overbilled(opening, Exec(s, more), e) {
        var t := Exec(s, more);
        ExecAppend(opening, actions, more);
        Balance(opening, actions + more, e);
        HonestRunsKeep(s, more, e);
        OnHandNonNegative(Only(e), t.procs);
      }
    }
  }
}
