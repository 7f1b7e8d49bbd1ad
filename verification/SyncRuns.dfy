/** A whole sync as a run of the pipeline, in any order of its steps. */
module SyncRuns {
  import opened Amounts
  import opened UsageSync
  import P = SyncPipeline

  predicate IsStored(o: P.Outcome) {
    o.Inserted? || o.InsertedUnreported?
  }

  /** A step of the sync of process p, or a recording of another goroutine meanwhile. */
  predicate OfSync(p: nat, outs: map<Entry, P.Outcome>, a: P.Action) {
    match a
    case Push(q, e, o) => q == p && e in outs && o == outs[e] && !o.InsertedThenRefused?
    case AddBack(q, _) => q == p
    case Record(q, _, _) => q == p
    case Swap(_) => false
  }

  predicate AllOfSync(p: nat, outs: map<Entry, P.Outcome>, actions: seq<P.Action>) {
    forall k :: 0 <= k < |actions| ==> OfSync(p, outs, actions[k])
  }

  /** What the recordings among the actions add to entry x. */
  function Recordings(actions: seq<P.Action>, x: Entry): int {
    if actions == [] then 0
    else (if actions[0].Record? && actions[0].e == x then actions[0].amount else 0) + Recordings(actions[1..], x)
  }

  /** What the tracker has of entry x, or will have once everything is pushed and added back. */
  function Tracked(q: P.Process, outs: map<Entry, P.Outcome>, x: Entry): int {
    Amount(q.tracker, x) + Amount(q.refused, x)
    + if x in outs && outs[x].Refused? then Amount(q.pushing, x) else 0
  }

  /** What the ledger has of entry x, or will have. */
  function Stored(ledger: Bag, q: P.Process, outs: map<Entry, P.Outcome>, x: Entry): int {
    Amount(ledger, x) + if x in outs && IsStored(outs[x]) then Amount(q.pushing, x) else 0
  }

  lemma StepTracks(s: P.Pipeline, p: nat, outs: map<Entry, P.Outcome>, a: P.Action, x: Entry)
    requires p < |s.procs| && OfSync(p, outs, a)
    ensures var t := P.Step(s, a);
      |t.procs| == |s.procs| && Tracked(t.procs[p], outs, x) == Tracked(s.procs[p], outs, x) + Recordings([a], x)
  {
  }

  lemma StepStores(s: P.Pipeline, p: nat, outs: map<Entry, P.Outcome>, a: P.Action, x: Entry)
    requires p < |s.procs| && OfSync(p, outs, a)
    ensures var t := P.Step(s, a);
      |t.procs| == |s.procs| && Stored(t.ledger, t.procs[p], outs, x) == Stored(s.ledger, s.procs[p], outs, x)
  {
  }

  lemma {:induction false} RunOfSync(s: P.Pipeline, p: nat, outs: map<Entry, P.Outcome>, actions: seq<P.Action>, x: Entry)
    requires p < |s.procs| && AllOfSync(p, outs, actions)
    ensures var t := P.Exec(s, actions);
      && |t.procs| == |s.procs|
      && Tracked(t.procs[p], outs, x) == Tracked(s.procs[p], outs, x) + Recordings(actions, x)
      && Stored(t.ledger, t.procs[p], outs, x) == Stored(s.ledger, s.procs[p], outs, x)
    decreases |actions|
  {
    if actions != [] {
      StepTracks(s, p, outs, actions[0], x);
      StepStores(s, p, outs, actions[0], x);
      RunOfSync(P.Step(s, actions[0]), p, outs, actions[1..], x);
    }
  }

  /** The sync has pushed and added back everything. */
  predicate Ended(s: P.Pipeline, p: nat) {
    p < |s.procs| && s.procs[p].pushing == s.procs[p].refused == map[]
  }

  /** Sync order independence: in whatever order the entries are pushed and the refused ones are
      added back, as soon as they are refused or later, and whatever is recorded meanwhile, a sync
      that ends leaves exactly the refused entries and the recordings in the tracker, and exactly
      the stored entries in the ledger. */
  lemma SyncRun(s: P.Pipeline, p: nat, outs: map<Entry, P.Outcome>, actions: seq<P.Action>, x: Entry)
    requires Ended(s, p) && AllOfSync(p, outs, actions) && s.procs[p].tracker.Keys <= outs.Keys
    requires Ended(P.Exec(s, [P.Swap(p)] + actions), p)
    ensures var before, t := s.procs[p].tracker, P.Exec(s, [P.Swap(p)] + actions);
      && Amount(t.procs[p].tracker, x)
         == (if x in before && outs[x].Refused? then before[x] else 0) + Recordings(actions, x)
      && Amount(t.ledger, x)
         == Amount(s.ledger, x) + (if x in before && IsStored(outs[x]) then before[x] else 0)
  {
    P.ExecOne(s, P.Swap(p), actions);
    RunOfSync(P.Step(s, P.Swap(p)), p, outs, actions, x);
  }

  /** A sync that ends: every entry pushed, and added back at once if refused. */
  function EntryByEntry(p: nat, es: seq<Entry>, outs: map<Entry, P.Outcome>): seq<P.Action>
    requires forall e :: e in es ==> e in outs
  {
    if es == [] then [] else [P.Push(p, es[0], outs[es[0]]), P.AddBack(p, es[0])] + EntryByEntry(p, es[1..], outs)
  }

  lemma {:induction false} EntryByEntryEnds(s: P.Pipeline, p: nat, es: seq<Entry>, outs: map<Entry, P.Outcome>)
    requires forall e :: e in es ==> e in outs && !outs[e].InsertedThenRefused?
    requires p < |s.procs| && s.procs[p].refused == map[] && forall e :: e in s.procs[p].pushing ==> e in es
    ensures AllOfSync(p, outs, EntryByEntry(p, es, outs)) && Ended(P.Exec(s, EntryByEntry(p, es, outs)), p)
    decreases |es|
  {
    if es != [] {
      var push, back := P.Push(p, es[0], outs[es[0]]), P.AddBack(p, es[0]);
      var rest := EntryByEntry(p, es[1..], outs);
      assert [push, back] + rest == [push] + ([back] + rest);
      P.ExecOne(s, push, [back] + rest);
      P.ExecOne(P.Step(s, push), back, rest);
      PushedBack(s, p, es[0], outs[es[0]]);
      EntryByEntryEnds(P.Step(P.Step(s, push), back), p, es[1..], outs);
    }
  }

  lemma PushedBack(s: P.Pipeline, p: nat, e: Entry, o: P.Outcome)
    requires p < |s.procs| && s.procs[p].refused == map[]
    ensures var t := P.Step(P.Step(s, P.Push(p, e, o)), P.AddBack(p, e));
      |t.procs| == |s.procs| && t.procs[p].refused == map[] && t.procs[p].pushing == s.procs[p].pushing - {e}
  {
  }

  /** The tracker's nested map and the pipeline's bag hold the same entries. */
  ghost predicate Same(u: Usage, b: Bag) {
    forall e :: (e in b <==> Pending(u, e)) && Amount(b, e) == AmountIn(u, e)
  }

  /** What SyncResult says of one entry, in terms of the outcomes of a run. */
  lemma SyncAmounts(f: Faults, rpc: bool, u: Usage, ledger: Bag, h: Bag, u': Usage, ledger': Bag, h': Bag,
                    tracker: Bag, outs: map<Entry, P.Outcome>, e: Entry)
    requires Same(u, tracker) && SyncResult(f, rpc, u, ledger, h, u', ledger', h')
    requires e in tracker ==> e in outs && outs[e] == OutcomeOf(f, rpc, u, e)
    ensures AmountIn(u', e) == (if e in tracker && outs[e].Refused? then Amount(tracker, e) else 0) + Amount(h', e) - Amount(h, e)
    ensures Amount(ledger', e) == Amount(ledger, e) + (if e in tracker && IsStored(outs[e]) then Amount(tracker, e) else 0)
  {
  }

  /** The method SyncUsage ends where every run of the pipeline ends in which the others record the
      same: then the trackers and the ledgers agree. */
  lemma SyncUsageIsARun(f: Faults, rpc: bool, u: Usage, h: Bag, u': Usage, ledger': Bag, h': Bag,
                        s: P.Pipeline, p: nat, outs: map<Entry, P.Outcome>, actions: seq<P.Action>, x: Entry)
    requires Ended(s, p) && Same(u, s.procs[p].tracker) && SyncResult(f, rpc, u, s.ledger, h, u', ledger', h')
    requires s.procs[p].tracker.Keys <= outs.Keys
    requires forall e :: e in s.procs[p].tracker ==> outs[e] == OutcomeOf(f, rpc, u, e)
    requires AllOfSync(p, outs, actions) && Ended(P.Exec(s, [P.Swap(p)] + actions), p)
    ensures var t := P.Exec(s, [P.Swap(p)] + actions);
      && Amount(t.procs[p].tracker, x) - Recordings(actions, x) == AmountIn(u', x) - (Amount(h', x) - Amount(h, x))
      && Amount(t.ledger, x) == Amount(ledger', x)
  {
    SyncRun(s, p, outs, actions, x);
    SyncAmounts(f, rpc, u, s.ledger, h, u', ledger', h', s.procs[p].tracker, outs, x);
  }

  /** When a sync loses nothing, of what was pending and of what others have recorded: over RPC,
      exactly when no entry with usage fails, because one failing entry drops the reply of its whole
      call; in process, exactly when every such key decodes to a project. */
  lemma NothingLostExactlyWhen(f: Faults, rpc: bool, u: Usage, ledger: Bag, h: Bag, u': Usage, ledger': Bag, h': Bag)
    requires SyncResult(f, rpc, u, ledger, h, u', ledger', h')
    ensures (forall e ::
               Amount(ledger', e) + AmountIn(u', e)
               == Amount(ledger, e) + AmountIn(u, e) + Amount(h', e) - Amount(h, e))
      <==> (forall e :: AmountIn(u, e) != 0 ==> if rpc then Stores(f, e) else Decodes(f, e))
  {
  }
}
