/** What a list of increments, in the order the counter applied them, credits and announces. */
module SpendHistory {
  import opened Options
  import opened Limits

  /** One applied increment: the cost, the counter value it produced, and by how much the capped
      counter was short of the usage already accounted for just before it. */
  datatype Spend = Spend(cost: int, total: int, undercount: int)

  function CreditOf(l: ServiceLimit, x: Spend): int {
    Credit(l, x.cost, x.total)
  }

  function EventOf(l: ServiceLimit, x: Spend): Option<EventType> {
    Event(l, x.cost, x.total)
  }

  /** SpendQuota returns spent = true exactly for these. */
  predicate Full(l: ServiceLimit, x: Spend) {
    CreditOf(l, x) >= x.cost
  }

  predicate Partial(l: ServiceLimit, x: Spend) {
    0 < CreditOf(l, x) < x.cost
  }

  /** What is summed over a history. */
  datatype Tally = Cost | Credited | FullCost | PartialCredit | PartialCount | FullEvent(e: EventType)

  function Worth(l: ServiceLimit, y: Tally, x: Spend): int {
    match y
    case Cost => x.cost
    case Credited => CreditOf(l, x)
    case FullCost => Owed(l, x.cost, x.total)
    case PartialCredit => if Full(l, x) then 0 else CreditOf(l, x)
    case PartialCount => if Partial(l, x) then 1 else 0
    case FullEvent(e) => if Announced(l, x.cost, x.total) == [e] then 1 else 0
  }

  function Sum(l: ServiceLimit, y: Tally, xs: seq<Spend>): int {
    if xs == [] then 0 else Sum(l, y, xs[..|xs| - 1]) + Worth(l, y, xs[|xs| - 1])
  }

  lemma SumAppend(l: ServiceLimit, y: Tally, xs: seq<Spend>, x: Spend)
    ensures Sum(l, y, xs + [x]) == Sum(l, y, xs) + Worth(l, y, x)
  {
  }

  /** The events in counter order. */
  function Events(l: ServiceLimit, xs: seq<Spend>): seq<EventType> {
    if xs == [] then []
    else
      var x := xs[|xs| - 1];
      Events(l, xs[..|xs| - 1]) + (if EventOf(l, x).Some? then [EventOf(l, x).value] else [])
  }

  /** Every cost is positive and every increment starts where the credits so far, added to the
      base, have brought the capped counter. */
  ghost predicate Chained(l: ServiceLimit, base: int, xs: seq<Spend>) {
    xs == [] ||
    (var x, before := xs[|xs| - 1], xs[..|xs| - 1];
     && Chained(l, base, before)
     && x.cost > 0
     && Min(x.total - x.cost, l.overMax) == base + Sum(l, Credited, before))
  }

  /** Exact billing: the credits add up to the growth of the capped counter. */
  lemma {:induction false} ExactBilling(l: ServiceLimit, base: int, xs: seq<Spend>)
    requires Valid(l) && base <= l.overMax && Chained(l, base, xs)
    ensures base + Sum(l, Credited, xs) == if xs == [] then base else Min(xs[|xs| - 1].total, l.overMax)
    ensures 0 <= Sum(l, FullCost, xs) <= Sum(l, Credited, xs) <= l.overMax - base
  {
    if xs != [] {
      var x, before := xs[|xs| - 1], xs[..|xs| - 1];
      ExactBilling(l, base, before);
      CreditIsMetered(l, x.cost, x.total);
    }
  }

  /** At most one spend is credited in part, and it is the one that fills the quota. */
  lemma {:induction false} OnePartialSpend(l: ServiceLimit, base: int, xs: seq<Spend>)
    requires Valid(l) && base <= l.overMax && Chained(l, base, xs)
    ensures 0 <= Sum(l, PartialCount, xs) <= 1
    ensures Sum(l, PartialCount, xs) == 1 ==> base + Sum(l, Credited, xs) == l.overMax
  {
    if xs != [] {
      var x, before := xs[|xs| - 1], xs[..|xs| - 1];
      OnePartialSpend(l, base, before);
      ExactBilling(l, base, before);
      ExactBilling(l, base, xs);
      CreditIsMetered(l, x.cost, x.total);
    }
  }

  /** A credit is the whole cost or the partial credit of a spend. */
  lemma {:induction false} CreditsSplit(l: ServiceLimit, base: int, xs: seq<Spend>)
    requires Valid(l) && Audited(l, base, xs)
    ensures Sum(l, Credited, xs) == Sum(l, FullCost, xs) + Sum(l, PartialCredit, xs)
    ensures Sum(l, PartialCredit, xs) >= 0
  {
    if xs != [] {
      var x := xs[|xs| - 1];
      CreditsSplit(l, base, xs[..|xs| - 1]);
      CreditIsMetered(l, x.cost, x.total);
    }
  }

  /** This spend is fully credited and raises e. */
  predicate Notifies(l: ServiceLimit, x: Spend, e: EventType) {
    if e.OverMax? then x.total == l.overMax else Crosses(l, x.cost, x.total, e)
  }

  /** There is an event of a fully credited spend exactly when some spend crosses its threshold, or,
      for the hard limit, lands on it. */
  lemma {:induction false} FullEventsAreCrossings(l: ServiceLimit, base: int, xs: seq<Spend>, e: EventType)
    requires Valid(l) && Audited(l, base, xs)
    ensures Sum(l, FullEvent(e), xs) >= 0
    ensures Sum(l, FullEvent(e), xs) > 0 <==> exists k :: 0 <= k < |xs| && Notifies(l, xs[k], e)
  {
    if xs != [] {
      var x, before := xs[|xs| - 1], xs[..|xs| - 1];
      FullEventsAreCrossings(l, base, before, e);
      AnnouncedExactlyWhen(l, x.cost, x.total, e);
      assert forall k :: 0 <= k < |before| ==> before[k] == xs[k];
    }
  }

  ghost predicate Increasing(es: seq<EventType>) {
    forall i, j :: 0 <= i < j < |es| ==> Rank(es[i]) < Rank(es[j])
  }

  /** The events of a whole history are strictly increasing, so each kind is raised at most once. */
  lemma {:induction false} EventsIncrease(l: ServiceLimit, base: int, xs: seq<Spend>)
    requires Valid(l) && base <= l.overMax && Chained(l, base, xs)
    ensures Increasing(Events(l, xs))
    ensures forall i :: 0 <= i < |Events(l, xs)| ==>
        base < Floor(l, Events(l, xs)[i]) <= base + Sum(l, Credited, xs)
  {
    if xs != [] {
      var x, before := xs[|xs| - 1], xs[..|xs| - 1];
      EventsIncrease(l, base, before);
      ExactBilling(l, base, before);
      ExactBilling(l, base, xs);
      CreditIsMetered(l, x.cost, x.total);
      var earlier := Events(l, before);
      if EventOf(l, x).Some? {
        EventMeansCrossing(l, x.cost, x.total, EventOf(l, x).value);
        forall i | 0 <= i < |earlier| ensures Rank(earlier[i]) < Rank(EventOf(l, x).value) {
          EventsAdvance(l, earlier[i], x.cost, x.total);
        }
      }
    }
  }

  /** The hard-limit event is raised exactly once, exactly when the capped counter reaches the limit. */
  lemma {:induction false} OverMaxExactlyWhenReached(l: ServiceLimit, base: int, xs: seq<Spend>)
    requires Valid(l) && base <= l.overMax && Chained(l, base, xs)
    ensures OverMax in Events(l, xs) <==> base < l.overMax == base + Sum(l, Credited, xs)
  {
    if xs != [] {
      var x, before := xs[|xs| - 1], xs[..|xs| - 1];
      OverMaxExactlyWhenReached(l, base, before);
      ExactBilling(l, base, before);
      ExactBilling(l, base, xs);
      CreditIsMetered(l, x.cost, x.total);
      EventMeansCrossing(l, x.cost, x.total, OverMax);
      assert OverMax in Events(l, xs) <==> OverMax in Events(l, before) || EventOf(l, x) == Some(OverMax);
    }
  }

  /** Passing the free limit is always announced, by its own event or by the hard-limit one. */
  lemma {:induction false} FreeMaxIsAnnounced(l: ServiceLimit, base: int, xs: seq<Spend>)
    requires Valid(l) && base <= l.overMax && Chained(l, base, xs)
    requires base < l.freeMax <= base + Sum(l, Credited, xs)
    ensures FreeMax in Events(l, xs) || OverMax in Events(l, xs)
  {
    var x, before := xs[|xs| - 1], xs[..|xs| - 1];
    ExactBilling(l, base, before);
    ExactBilling(l, base, xs);
    if base + Sum(l, Credited, before) >= l.freeMax {
      FreeMaxIsAnnounced(l, base, before);
    } else {
      EventMeansCrossing(l, x.cost, x.total, FreeMax);
    }
  }

  /** The events of fully credited spends are among all the events, so none of them repeats either. */
  lemma {:induction false} FullEventsAtMostOnce(l: ServiceLimit, base: int, xs: seq<Spend>, e: EventType)
    requires Valid(l) && base <= l.overMax && Chained(l, base, xs)
    ensures 0 <= Sum(l, FullEvent(e), xs) <= 1
    ensures Sum(l, FullEvent(e), xs) == 1 ==> e in Events(l, xs)
  {
    if xs != [] {
      var x, before := xs[|xs| - 1], xs[..|xs| - 1];
      FullEventsAtMostOnce(l, base, before, e);
      EventsIncrease(l, base, xs);
      if EventOf(l, x) == Some(e) {
        var es := Events(l, xs);
        assert es == Events(l, before) + [e];
        if e in Events(l, before) {
          var i :| 0 <= i < |Events(l, before)| && Events(l, before)[i] == e;
          assert Rank(es[i]) < Rank(es[|es| - 1]);
        }
      }
    }
  }

  /** The undercounts written in the history are the true ones, whatever they are. */
  ghost predicate Audited(l: ServiceLimit, base: int, xs: seq<Spend>) {
    xs == [] ||
    (var x, before := xs[|xs| - 1], xs[..|xs| - 1];
     && Audited(l, base, before)
     && x.cost > 0
     && Min(x.total - x.cost, l.overMax) + x.undercount == base + Sum(l, Credited, before))
  }

  predicate UndercountsAtMost(w: int, xs: seq<Spend>) {
    forall i :: 0 <= i < |xs| ==> xs[i].undercount <= w
  }

  lemma {:induction false} NoUndercountIsChained(l: ServiceLimit, base: int, xs: seq<Spend>)
    requires Audited(l, base, xs)
    requires forall i :: 0 <= i < |xs| ==> xs[i].undercount == 0
    ensures Chained(l, base, xs)
  {
    if xs != [] {
      NoUndercountIsChained(l, base, xs[..|xs| - 1]);
    }
  }

  /** However the counter was lost, reset or overwritten, the accepted cost exceeds the hard limit
      by at most the largest undercount an increment was applied to. */
  lemma {:induction false} OverspendIsUndercount(l: ServiceLimit, base: int, xs: seq<Spend>, w: int)
    requires Valid(l) && w >= 0
    requires Audited(l, base, xs) && UndercountsAtMost(w, xs)
    ensures base + Sum(l, FullCost, xs) <= base + Sum(l, Credited, xs) <= Max(base, l.overMax + w)
  {
    if xs != [] {
      var x, before := xs[|xs| - 1], xs[..|xs| - 1];
      OverspendIsUndercount(l, base, before, w);
      CreditIsMetered(l, x.cost, x.total);
    }
  }
}
