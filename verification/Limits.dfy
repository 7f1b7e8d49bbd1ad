/** Service limits: how one increment of the shared counter is credited, and which event it raises. */
module Limits {
  import opened Options

  /** In the order of the generated enumeration. */
  datatype EventType = FreeWarn | FreeMax | OverWarn | OverMax

  datatype ServiceLimit = ServiceLimit(rateLimit: int, freeWarn: int, freeMax: int, overWarn: int, overMax: int)

  datatype LimitError = BadRateLimit | BadFreeMax | BadFreeWarn | BadOverMax | BadOverWarn

  datatype SpendResult = SpendResult(credit: int, event: Option<EventType>)

  function Validate(l: ServiceLimit): Option<LimitError> {
    if l.rateLimit < 1 then Some(BadRateLimit)
    else if l.freeMax <= 0 then Some(BadFreeMax)
    else if l.freeWarn != 0 && l.freeWarn > l.freeMax then Some(BadFreeWarn)
    else if l.overMax < l.freeMax then Some(BadOverMax)
    else if l.overWarn != 0 && l.overWarn > l.overMax then Some(BadOverWarn)
    else None
  }

  predicate Valid(l: ServiceLimit) {
    Validate(l).None?
  }

  /** The amount over the threshold, if this spend of v is the one that brought total to it. */
  function GetOverThreshold(v: int, total: int, threshold: int): Option<int> {
    if total < threshold then None
    else if total - v >= threshold then None
    else Some(Max(0, total - threshold))
  }

  function GetSpendResult(l: ServiceLimit, v: int, total: int): SpendResult {
    if total < l.freeMax then
      if GetOverThreshold(v, total, l.freeWarn).Some? then SpendResult(v, Some(FreeWarn))
      else SpendResult(v, None)
    else if total < l.overMax then
      if GetOverThreshold(v, total, l.freeMax).Some? then SpendResult(v, Some(FreeMax))
      else if GetOverThreshold(v, total, l.overWarn).Some? then SpendResult(v, Some(OverWarn))
      else SpendResult(v, None)
    else
      match GetOverThreshold(v, total, l.overMax)
      case Some(over) => SpendResult(v - over, Some(OverMax))
      case None => SpendResult(0, None)
  }

  function Credit(l: ServiceLimit, v: int, total: int): int {
    GetSpendResult(l, v, total).credit
  }

  function Event(l: ServiceLimit, v: int, total: int): Option<EventType> {
    GetSpendResult(l, v, total).event
  }

  /** The cost of a fully credited spend: SpendQuota returns spent = true exactly for these. */
  function Owed(l: ServiceLimit, v: int, total: int): int {
    if Credit(l, v, total) >= v then v else 0
  }

  /** The event SpendQuota notifies: that of a fully credited spend. */
  function Announced(l: ServiceLimit, v: int, total: int): seq<EventType> {
    if Credit(l, v, total) >= v && Event(l, v, total).Some? then [Event(l, v, total).value] else []
  }

  function Rank(e: EventType): nat {
    match e
    case FreeWarn => 0
    case FreeMax => 1
    case OverWarn => 2
    case OverMax => 3
  }

  /** The counter value that any total raising event e has reached. */
  function Floor(l: ServiceLimit, e: EventType): int {
    match e
    case FreeWarn => l.freeWarn
    case FreeMax => l.freeMax
    case OverWarn => Max(l.freeMax, l.overWarn)
    case OverMax => l.overMax
  }

  /** How much the counter, capped at the hard limit, grows when v brings it to total. */
  function Metered(l: ServiceLimit, v: int, total: int): int {
    Min(total, l.overMax) - Min(total - v, l.overMax)
  }

  /** The credit is the growth of the capped counter, for every amount and total, unless a refund
      (a negative amount) crosses the hard limit downwards. */
  lemma CreditIsMetered(l: ServiceLimit, v: int, total: int)
    requires Valid(l)
    ensures Credit(l, v, total) == Metered(l, v, total) <==> !(total < l.overMax < total - v)
    ensures v >= 0 ==> 0 <= Credit(l, v, total) == Metered(l, v, total) <= v
  {
  }

  /** What the counter had reached decides which events are still to come: strictly later ones. */
  lemma EventsAdvance(l: ServiceLimit, e: EventType, v: int, total: int)
    requires Valid(l) && v > 0
    requires total - v >= Floor(l, e)
    ensures Event(l, v, total).Some? ==> Rank(e) < Rank(Event(l, v, total).value)
  {
  }

  /** A spend that brings the counter to total crosses this threshold, and no higher-priority one
      hides it. */
  predicate Crosses(l: ServiceLimit, v: int, total: int, e: EventType) {
    match e
    case FreeWarn => total - v < l.freeWarn <= total < l.freeMax
    case FreeMax => total - v < l.freeMax <= total < l.overMax
    case OverWarn => l.freeMax <= total - v < l.overWarn <= total < l.overMax
    case OverMax => total - v < l.overMax <= total
  }

  /** Each event is raised exactly when its own threshold is crossed and no other hides it. */
  lemma EventMeansCrossing(l: ServiceLimit, v: int, total: int, e: EventType)
    requires Valid(l) && v > 0
    ensures Event(l, v, total) == Some(e) <==> Crosses(l, v, total, e)
    ensures Crosses(l, v, total, e) ==> total - v < Floor(l, e) <= total && Floor(l, e) <= l.overMax
    ensures total - v < l.freeMax <= total ==> Event(l, v, total) in {Some(FreeMax), Some(OverMax)}
  {
  }

  /** Each event is notified exactly when it is raised, but for the hard limit: that one is notified
      exactly when the spend lands on the limit. */
  lemma AnnouncedExactlyWhen(l: ServiceLimit, v: int, total: int, e: EventType)
    requires Valid(l) && v > 0
    ensures Announced(l, v, total) == [e] <==> if e.OverMax? then total == l.overMax else Crosses(l, v, total, e)
  {
  }

  /** The error texts of Validate ask for warnings that are not negative. */
  predicate Documented(l: ServiceLimit) {
    && l.rateLimit > 0 && l.freeMax > 0 && l.overMax >= l.freeMax
    && 0 <= l.freeWarn <= l.freeMax && 0 <= l.overWarn <= l.overMax
  }

  /** Validate does not look at the sign of the warnings: what it accepts is what it documents
      exactly when neither is negative, and it accepts negative ones. */
  lemma NegativeWarningsPass(l: ServiceLimit)
    ensures Documented(l) <==> Valid(l) && l.freeWarn >= 0 && l.overWarn >= 0
    ensures Valid(ServiceLimit(1, -1, 1, -1, 1)) && !Documented(ServiceLimit(1, -1, 1, -1, 1))
  {
  }

  /** One spend that crosses both the free limit and the overage warning never raises the warning. */
  lemma OverWarnIsHidden(l: ServiceLimit, v: int, total: int)
    requires Valid(l) && v > 0
    requires total - v < l.overWarn <= total
    ensures Event(l, v, total) == Some(OverWarn) <==> l.freeMax <= total - v && total < l.overMax
  {
  }

  /** Which error Validate gives: that of the first check that fails. */
  lemma FirstErrorIsGiven(l: ServiceLimit)
    ensures Validate(l) == Some(BadRateLimit) <==> l.rateLimit < 1
    ensures Validate(l) == Some(BadFreeMax) <==> l.rateLimit >= 1 && l.freeMax <= 0
    ensures Validate(l) == Some(BadFreeWarn) <==> l.rateLimit >= 1 && 0 < l.freeMax < l.freeWarn
    ensures Validate(l) == Some(BadOverMax) <==>
      l.rateLimit >= 1 && l.freeMax > 0 && l.freeWarn <= l.freeMax && l.overMax < l.freeMax
    ensures Validate(l) == Some(BadOverWarn) <==>
      l.rateLimit >= 1 && l.freeMax > 0 && l.freeWarn <= l.freeMax <= l.overMax < l.overWarn
  {
  }
}
