/** The main results about the spend protocol, for any number of goroutines and client processes
    and every interleaving of their steps. */
module SpendTheorems {
  import opened Options
  import opened Limits
  import opened SpendHistory
  import opened Amounts
  import opened SpendProtocol
  import opened SpendBooks
  import opened SpendSafety
  import P = SyncPipeline

  /** End-to-end conservation, with no environment assumption: the opening ledger total plus every
      credit ever computed is in the ledger, in a tracker or running sync, between the counter and
      a tracker, or lost; minus what a dishonest updater stored twice. */
  lemma Conservation(l: ServiceLimit, s: State, actions: seq<Action>)
    requires Valid(l) && Init(s) && AllCharge(actions)
    ensures var t := Exec(l, s, actions);
      Ledger(s) + Sum(l, Credited, t.spends)
      == Ledger(t) + P.OnHand(Everything, t.pipe.procs) + Measure(l, HeldCredit, t.threads)
         + t.unbilled + Total(Everything, t.pipe.lost) - Total(Everything, t.pipe.doubled)
  {
    InitKeepsBooks(l, s);
    ExecKeepsBooks(l, Ledger(s), s, actions);
  }

  /** What is accepted, exactly, with no environment assumption: the whole cost of every fully
      credited increment is in a call that returned spent = true, in one that is about to, or in one
      whose reply was lost. The other credits are partial. */
  lemma AcceptedIsFullyCredited(l: ServiceLimit, s: State, actions: seq<Action>)
    requires Valid(l) && Init(s) && AllCharge(actions)
    ensures var t := Exec(l, s, actions);
      && t.returned + Measure(l, OwedCost, t.threads) + t.unanswered == Sum(l, FullCost, t.spends)
      && Sum(l, FullCost, t.spends) + Sum(l, PartialCredit, t.spends) == Sum(l, Credited, t.spends)
      && Sum(l, PartialCredit, t.spends) >= 0
  {
    InitKeepsBooks(l, s);
    ExecKeepsBooks(l, Ledger(s), s, actions);
    CreditsSplit(l, Ledger(s), Exec(l, s, actions).spends);
  }

  /** With no environment assumption either: the accepted cost is every full credit but for the calls
      yet to return and the lost replies, and it exceeds the hard limit by at most the largest
      undercount of a counter that was incremented. */
  lemma OverspendBound(l: ServiceLimit, s: State, actions: seq<Action>, w: int)
    requires Valid(l) && Init(s) && AllCharge(actions)
    requires w >= 0 && UndercountsAtMost(w, Exec(l, s, actions).spends)
    ensures var b, t := Ledger(s), Exec(l, s, actions);
      && t.returned == Sum(l, FullCost, t.spends) - Measure(l, OwedCost, t.threads) - t.unanswered
      && b + t.returned <= b + Sum(l, FullCost, t.spends) <= Max(b, l.overMax + w)
  {
    InitKeepsBooks(l, s);
    ExecKeepsBooks(l, Ledger(s), s, actions);
    var t := Exec(l, s, actions);
    OverspendIsUndercount(l, Ledger(s), t.spends, w);
    CostsArePositive(t);
    MeasureCovers(l, OwedCost, t.threads, -1);
  }

  lemma CostsArePositive(s: State)
    requires Sound(s)
    ensures forall j :: 0 <= j < |s.threads| && Running(s.threads[j].pc) ==> s.threads[j].req.cost > 0
  {
  }

  /** Hard-limit safety: what was in the ledger and all the calls that returned spent = true never
      exceed the hard limit together, although the counter itself may overshoot it. With a live
      counter the accepted cost is known exactly: it is the growth of the capped counter, less the
      calls that have yet to return, those whose reply was lost, and one partial credit. */
  lemma HardLimit(l: ServiceLimit, s: State, actions: seq<Action>)
    requires Valid(l) && Init(s) && AllCharge(actions) && Calm(l, s, actions)
    ensures var b, t := Ledger(s), Exec(l, s, actions);
      && b + t.returned <= Max(b, l.overMax)
      && (Live(t) ==>
            t.returned + Measure(l, OwedCost, t.threads) + t.unanswered + Sum(l, PartialCredit, t.spends)
            == Min(t.cell.value, l.overMax) - Min(b, l.overMax))
  {
    BillingIsExact(l, s, actions);
    AcceptedIsFullyCredited(l, s, actions);
    InitIsSteady(l, s);
    ExecKeepsSteady(l, Ledger(s), s, actions);
    OverspendBound(l, s, actions, 0);
  }

  /** Exact billing: at every moment the credits are the growth of the capped counter, and where
      they have gone is known. */
  lemma BillingIsExact(l: ServiceLimit, s: State, actions: seq<Action>)
    requires Valid(l) && Init(s) && AllCharge(actions) && Calm(l, s, actions)
    ensures var b, t := Ledger(s), Exec(l, s, actions);
      && (Live(t) ==>
          && Sum(l, Credited, t.spends) == Min(t.cell.value, l.overMax) - Min(b, l.overMax)
          && Ledger(t) + P.OnHand(Everything, t.pipe.procs) + Measure(l, HeldCredit, t.threads)
             + t.unbilled + Total(Everything, t.pipe.lost)
             == b + Min(t.cell.value, l.overMax) - Min(b, l.overMax))
      && (!Live(t) ==> Ledger(t) == b + Sum(l, Credited, t.spends))
      && Sum(l, PartialCount, t.spends) <= 1
  {
    InitIsSteady(l, s);
    ExecKeepsSteady(l, Ledger(s), s, actions);
    var t := Exec(l, s, actions);
    if Ledger(s) <= l.overMax {
      NoUndercountIsChained(l, Ledger(s), t.spends);
      OnePartialSpend(l, Ledger(s), t.spends);
    }
  }

  /** The initialiser election: at most one client at a time initialises the counter, it does so
      behind the placeholder (SET never replaces a live counter), every INCRBY is about to hit a
      live, non-negative counter, and that counter is its initial value plus every increment since. */
  lemma Election(l: ServiceLimit, s: State, actions: seq<Action>)
    requires Valid(l) && Init(s) && AllCharge(actions) && Calm(l, s, actions)
    ensures var t := Exec(l, s, actions);
      && (forall i, j :: 0 <= i < j < |t.threads| ==>
            !((t.threads[i].pc.Elected? || t.threads[i].pc.Fetched?)
              && (t.threads[j].pc.Elected? || t.threads[j].pc.Fetched?)))
      && (!NoElected(t) ==> t.cell == Some(SENTINEL))
      && (!NoPeeked(t) ==> Live(t))
      && (Live(t) ==> t.cell.value >= 0)
      && Counted(l, t)
  {
    InitIsSteady(l, s);
    InitKeepsBooks(l, s);
    ExecKeepsSteady(l, Ledger(s), s, actions);
    ExecKeepsBooks(l, Ledger(s), s, actions);
    OneElected(l, Ledger(s), Exec(l, s, actions));
  }

  lemma OneElected(l: ServiceLimit, opening: int, t: State)
    requires Good(l, opening, t)
    ensures forall i, j :: 0 <= i < j < |t.threads| ==>
            !((t.threads[i].pc.Elected? || t.threads[i].pc.Fetched?)
              && (t.threads[j].pc.Elected? || t.threads[j].pc.Fetched?))
    ensures !NoElected(t) ==> t.cell == Some(SENTINEL)
  {
    forall i | 0 <= i < |t.threads| && (t.threads[i].pc.Elected? || t.threads[i].pc.Fetched?)
      ensures t.cell == Some(SENTINEL)
    {
      ElectingIsCounted(l, opening, t, i);
    }
    CostsArePositive(t);
    forall i, j | 0 <= i < j < |t.threads|
      && (t.threads[i].pc.Elected? || t.threads[i].pc.Fetched?)
      && (t.threads[j].pc.Elected? || t.threads[j].pc.Fetched?)
      ensures false
    {
      TwoAreTwo(l, Electing, t.threads, i, j);
    }
  }

  lemma {:induction false} TwoAreTwo(l: ServiceLimit, g: Gauge, ts: seq<Thread>, i: nat, j: nat)
    requires Valid(l) && i < j < |ts|
    requires forall k :: 0 <= k < |ts| && Running(ts[k].pc) ==> ts[k].req.cost > 0
    ensures Measure(l, g, ts) >= Weigh(l, g, ts[i]) + Weigh(l, g, ts[j])
  {
    if i == 0 {
      MeasureCovers(l, g, ts[1..], j - 1);
    } else {
      TwoAreTwo(l, g, ts[1..], i - 1, j - 1);
      WeightIsNonNegative(l, g, ts[0]);
    }
  }

  /** With N goroutines and costs of at most c, the counter overshoots by less than N * c. */
  lemma Overshoot(l: ServiceLimit, s: State, actions: seq<Action>, c: int)
    requires Valid(l) && Init(s) && AllCharge(actions) && Calm(l, s, actions)
    requires c > 0 && CostsAtMost(c, actions)
    ensures var t := Exec(l, s, actions);
      Live(t) ==> t.cell.value <= Max(Ledger(s), l.overMax - 1 + |s.threads| * c)
  {
    InitIsSteady(l, s);
    ExecKeepsSteady(l, Ledger(s), s, actions);
    ExecKeepsBounded(l, Ledger(s), c, s, actions);
    var t := Exec(l, s, actions);
    CostsArePositive(t);
    MeasureCovers(l, PeekedCost, t.threads, -1);
  }

  /** The events of a whole run, in the order of the increments, strictly increase; the hard-limit
      event is there exactly when the quota is used up; what is notified is raised by a fully
      credited spend, and no kind is notified twice. */
  lemma EventOrder(l: ServiceLimit, s: State, actions: seq<Action>)
    requires Valid(l) && Init(s) && AllCharge(actions) && Calm(l, s, actions)
    ensures var b, t := Ledger(s), Exec(l, s, actions);
      && Increasing(Events(l, t.spends))
      && (OverMax in Events(l, t.spends) <==> b < l.overMax == b + Sum(l, Credited, t.spends))
      && (b < l.freeMax <= b + Sum(l, Credited, t.spends) ==>
            FreeMax in Events(l, t.spends) || OverMax in Events(l, t.spends))
      && (forall e :: Count(t.notified, e) <= Sum(l, FullEvent(e), t.spends) <= 1)
      && (forall e :: e in t.notified ==> e in Events(l, t.spends))
  {
    var b, t := Ledger(s), Exec(l, s, actions);
    InitIsSteady(l, s);
    ExecKeepsSteady(l, b, s, actions);
    NoUndercountIsChained(l, b, t.spends);
    if b <= l.overMax {
      HistoryOrder(l, b, t.spends);
    }
    forall e ensures Count(t.notified, e) <= Sum(l, FullEvent(e), t.spends) <= 1
      && (e in t.notified ==> e in Events(l, t.spends))
    {
      NotifiedExactly(l, s, actions, e);
      if b <= l.overMax {
        FullEventsAtMostOnce(l, b, t.spends, e);
      }
    }
  }

  lemma HistoryOrder(l: ServiceLimit, b: int, xs: seq<Spend>)
    requires Valid(l) && b <= l.overMax && Chained(l, b, xs)
    ensures Increasing(Events(l, xs))
    ensures OverMax in Events(l, xs) <==> b < l.overMax == b + Sum(l, Credited, xs)
    ensures b < l.freeMax <= b + Sum(l, Credited, xs) ==> FreeMax in Events(l, xs) || OverMax in Events(l, xs)
  {
    EventsIncrease(l, b, xs);
    OverMaxExactlyWhenReached(l, b, xs);
    if b < l.freeMax <= b + Sum(l, Credited, xs) {
      FreeMaxIsAnnounced(l, b, xs);
    }
  }

  /** No call is between its increment and its return. */
  predicate Finished(s: State) {
    forall i :: 0 <= i < |s.threads| ==> !s.threads[i].pc.Incremented? && !s.threads[i].pc.Recorded?
  }

  /** What is notified, exactly, with no environment assumption: as many events of each kind as
      fully credited spends have raised, less those yet to be notified and those lost. So in a
      finished run that lost none, an event is notified exactly when some spend crosses its
      threshold, and the hard-limit event exactly when some spend lands on the limit. */
  lemma NotifiedExactly(l: ServiceLimit, s: State, actions: seq<Action>, e: EventType)
    requires Valid(l) && Init(s) && AllCharge(actions)
    ensures var t := Exec(l, s, actions);
      && Count(t.notified, e) + Count(t.unnotified, e) + Measure(l, HeldEvent(e), t.threads)
         == Sum(l, FullEvent(e), t.spends)
      && Count(t.unnotified, e) >= 0 && Measure(l, HeldEvent(e), t.threads) >= 0
      && (e in t.notified <==> Count(t.notified, e) > 0)
      && (Finished(t) && e !in t.unnotified ==>
            (e in t.notified <==> exists k :: 0 <= k < |t.spends| && Notifies(l, t.spends[k], e)))
  {
    InitKeepsBooks(l, s);
    ExecKeepsBooks(l, Ledger(s), s, actions);
    var t := Exec(l, s, actions);
    CostsArePositive(t);
    MeasureCovers(l, HeldEvent(e), t.threads, -1);
    CountsMembers(t.notified, e);
    CountsMembers(t.unnotified, e);
    FullEventsAreCrossings(l, Ledger(s), t.spends, e);
    if Finished(t) {
      NothingMeasured(l, HeldEvent(e), t.threads);
    }
  }

  lemma {:induction false} CountsMembers(es: seq<EventType>, e: EventType)
    ensures Count(es, e) >= 0 && (e in es <==> Count(es, e) > 0)
  {
    if es != [] {
      CountsMembers(es[..|es| - 1], e);
      assert es == es[..|es| - 1] + [es[|es| - 1]];
    }
  }
}
