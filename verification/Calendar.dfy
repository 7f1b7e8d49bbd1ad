/** Calendar dates, the normalisation of time.Date, and the billing window of a cycle. */
module Calendar {
  import opened Options

  datatype Date = Date(year: int, month: int, day: int)

  /** A time in a location: its date there and its clock; the zero Time is represented by None. */
  datatype Time = Time(date: Date, clock: nat, location: string)

  datatype Cycle = Cycle(start: Option<Time>, end: Option<Time>)

  predicate IsLeap(y: int) {
    y % 4 == 0 && (y % 100 != 0 || y % 400 == 0)
  }

  function DaysIn(y: int, m: int): int {
    if m == 2 then (if IsLeap(y) then 29 else 28)
    else if m == 4 || m == 6 || m == 9 || m == 11 then 30
    else 31
  }

  predicate ValidDate(d: Date) {
    1 <= d.month <= 12 && 1 <= d.day <= DaysIn(d.year, d.month)
  }

  function NextDay(d: Date): Date {
    if d.day < DaysIn(d.year, d.month) then d.(day := d.day + 1)
    else if d.month < 12 then Date(d.year, d.month + 1, 1)
    else Date(d.year + 1, 1, 1)
  }

  function PreviousDay(d: Date): Date {
    if d.day > 1 then d.(day := d.day - 1)
    else if d.month > 1 then Date(d.year, d.month - 1, DaysIn(d.year, d.month - 1))
    else Date(d.year - 1, 12, 31)
  }

  function Shift(d: Date, n: int): Date
    decreases if n >= 0 then n else -n
  {
    if n == 0 then d else if n > 0 then Shift(NextDay(d), n - 1) else Shift(PreviousDay(d), n + 1)
  }

  /** time.Date: months outside 1..12 and days outside the month carry over. */
  function MakeDate(y: int, m: int, d: int): Date {
    Shift(Date(y + (m - 1) / 12, (m - 1) % 12 + 1, 1), d - 1)
  }

  function AddDate(t: Time, years: int, months: int, days: int): Time {
    t.(date := MakeDate(t.date.year + years, t.date.month + months, t.date.day + days))
  }

  function GetStart(c: Option<Cycle>, now: Time): Time {
    if c.Some? && c.value.start.Some? then c.value.start.value
    else Time(MakeDate(now.date.year, now.date.month, 1), 0, now.location)
  }

  function GetEnd(c: Option<Cycle>, now: Time): Time {
    if c.Some? && c.value.end.Some? then c.value.end.value
    else AddDate(GetStart(c, now), 0, 1, -1)
  }

  /** Days before a year and before a month, counted from the first of January of year 1: the
      independent measure the windows are stated with. */
  function DaysBeforeYear(y: int): int {
    365 * (y - 1) + (y - 1) / 4 - (y - 1) / 100 + (y - 1) / 400
  }

  function DaysBeforeMonth(y: int, m: int): int
    requires 1 <= m <= 13
  {
    if m == 1 then 0 else DaysBeforeMonth(y, m - 1) + DaysIn(y, m - 1)
  }

  function DayNumber(d: Date): int
    requires ValidDate(d)
  {
    DaysBeforeYear(d.year) + DaysBeforeMonth(d.year, d.month) + d.day - 1
  }

  lemma MonthsOfYear(y: int)
    ensures DaysBeforeMonth(y, 13) == if IsLeap(y) then 366 else 365
    ensures DaysBeforeMonth(y, 12) == DaysBeforeMonth(y, 13) - 31
  {
    assert DaysBeforeMonth(y, 2) == 31;
    assert DaysBeforeMonth(y, 3) == 31 + DaysIn(y, 2);
    assert DaysBeforeMonth(y, 4) == DaysBeforeMonth(y, 3) + 31;
    assert DaysBeforeMonth(y, 5) == DaysBeforeMonth(y, 4) + 30;
    assert DaysBeforeMonth(y, 6) == DaysBeforeMonth(y, 5) + 31;
    assert DaysBeforeMonth(y, 7) == DaysBeforeMonth(y, 6) + 30;
    assert DaysBeforeMonth(y, 8) == DaysBeforeMonth(y, 7) + 31;
    assert DaysBeforeMonth(y, 9) == DaysBeforeMonth(y, 8) + 31;
    assert DaysBeforeMonth(y, 10) == DaysBeforeMonth(y, 9) + 30;
    assert DaysBeforeMonth(y, 11) == DaysBeforeMonth(y, 10) + 31;
    assert DaysBeforeMonth(y, 12) == DaysBeforeMonth(y, 11) + 30;
  }

  lemma Quotient4(y: int)
    ensures y / 4 == (y - 1) / 4 + (if y % 4 == 0 then 1 else 0)
  {
  }

  lemma Quotient100(y: int)
    ensures y / 100 == (y - 1) / 100 + (if y % 100 == 0 then 1 else 0)
  {
  }

  lemma Quotient400(y: int)
    ensures y / 400 == (y - 1) / 400 + (if y % 400 == 0 then 1 else 0)
  {
  }

  lemma Multiples(y: int)
    ensures y % 100 == 0 ==> y % 4 == 0
    ensures y % 400 == 0 ==> y % 100 == 0
  {
  }

  lemma YearLength(y: int)
    ensures DaysBeforeYear(y + 1) - DaysBeforeYear(y) == if IsLeap(y) then 366 else 365
  {
    Quotient4(y);
    Quotient100(y);
    Quotient400(y);
    Multiples(y);
  }

  lemma NextDayIsNext(d: Date)
    requires ValidDate(d)
    ensures ValidDate(NextDay(d)) && DayNumber(NextDay(d)) == DayNumber(d) + 1
    ensures PreviousDay(NextDay(d)) == d
  {
    MonthsOfYear(d.year);
    YearLength(d.year);
  }

  lemma PreviousDayIsPrevious(d: Date)
    requires ValidDate(d)
    ensures ValidDate(PreviousDay(d)) && DayNumber(PreviousDay(d)) == DayNumber(d) - 1
    ensures NextDay(PreviousDay(d)) == d
  {
    MonthsOfYear(d.year - 1);
    YearLength(d.year - 1);
  }

  /** Shifting by n days is exact, across months, years and leap days. */
  lemma {:induction false} ShiftIsExact(d: Date, n: int)
    requires ValidDate(d)
    ensures ValidDate(Shift(d, n)) && DayNumber(Shift(d, n)) == DayNumber(d) + n
    decreases if n >= 0 then n else -n
  {
    if n > 0 {
      NextDayIsNext(d);
      ShiftIsExact(NextDay(d), n - 1);
    } else if n < 0 {
      PreviousDayIsPrevious(d);
      ShiftIsExact(PreviousDay(d), n + 1);
    }
  }

  lemma {:induction false} YearsInOrder(a: int, b: int)
    requires a <= b
    ensures DaysBeforeYear(a) <= DaysBeforeYear(b)
    decreases b - a
  {
  }

  lemma {:induction false} MonthsInOrder(y: int, a: int, b: int)
    requires 1 <= a <= b <= 13
    ensures DaysBeforeMonth(y, a) <= DaysBeforeMonth(y, b)
    decreases b - a
  {
    if a < b {
      MonthsInOrder(y, a, b - 1);
    }
  }

  predicate Earlier(a: Date, b: Date) {
    a.year < b.year || (a.year == b.year && (a.month < b.month || (a.month == b.month && a.day < b.day)))
  }

  /** Day numbers order valid dates as the calendar does, so they identify them. */
  lemma DayNumbersAreOrdered(a: Date, b: Date)
    requires ValidDate(a) && ValidDate(b)
    ensures DayNumber(a) < DayNumber(b) <==> Earlier(a, b)
    ensures DayNumber(a) == DayNumber(b) <==> a == b
  {
    if Earlier(a, b) {
      EarlierIsLess(a, b);
    } else if Earlier(b, a) {
      EarlierIsLess(b, a);
    }
  }

  lemma EarlierIsLess(a: Date, b: Date)
    requires ValidDate(a) && ValidDate(b) && Earlier(a, b)
    ensures DayNumber(a) < DayNumber(b)
  {
    if a.year < b.year {
      YearsInOrder(a.year + 1, b.year);
      YearLength(a.year);
      MonthsOfYear(a.year);
      MonthsInOrder(a.year, a.month + 1, 13);
      MonthsInOrder(b.year, 1, b.month);
    } else if a.month < b.month {
      MonthsInOrder(a.year, a.month + 1, b.month);
    }
  }

  /** The cycle leaves both ends to the calendar. */
  predicate Monthly(c: Option<Cycle>) {
    c.None? || (c.value.start.None? && c.value.end.None?)
  }

  predicate SameMonth(a: Date, b: Date) {
    a.year == b.year && a.month == b.month
  }

  /** The first and the last day of the month of now. */
  lemma MonthEnds(c: Option<Cycle>, now: Time)
    requires Monthly(c) && ValidDate(now.date)
    ensures GetStart(c, now).date == Date(now.date.year, now.date.month, 1)
    ensures GetEnd(c, now).date == Date(now.date.year, now.date.month, DaysIn(now.date.year, now.date.month))
  {
  }

  /** The window is exactly the calendar month of now: a day is in it if and only if it is a day of
      that month, in leap years and others. */
  lemma WindowIsTheMonth(c: Option<Cycle>, now: Time, d: Date)
    requires Monthly(c) && ValidDate(now.date) && ValidDate(d)
    ensures ValidDate(GetStart(c, now).date) && ValidDate(GetEnd(c, now).date)
    ensures DayNumber(GetStart(c, now).date) <= DayNumber(d) <= DayNumber(GetEnd(c, now).date)
      <==> SameMonth(d, now.date)
  {
    MonthEnds(c, now);
    DayNumbersAreOrdered(d, GetStart(c, now).date);
    DayNumbersAreOrdered(GetEnd(c, now).date, d);
  }

  /** Windows tile the calendar: the day after one window's end starts the next window, and the day
      before its start ends the previous one. */
  lemma WindowsTile(c: Option<Cycle>, now: Time, clock: nat)
    requires Monthly(c) && ValidDate(now.date)
    ensures var next := NextDay(GetEnd(c, now).date);
      && ValidDate(next) && DayNumber(next) == DayNumber(GetEnd(c, now).date) + 1
      && GetStart(c, Time(next, clock, now.location)).date == next
    ensures var last := PreviousDay(GetStart(c, now).date);
      && ValidDate(last) && DayNumber(last) == DayNumber(GetStart(c, now).date) - 1
      && GetEnd(c, Time(last, clock, now.location)).date == last
  {
    MonthEnds(c, now);
    NextDayIsNext(GetEnd(c, now).date);
    PreviousDayIsPrevious(GetStart(c, now).date);
    MonthEnds(c, Time(NextDay(GetEnd(c, now).date), clock, now.location));
    MonthEnds(c, Time(PreviousDay(GetStart(c, now).date), clock, now.location));
  }

  /** The first of the next month is this month's days after the first of this one. */
  lemma NextMonth(y: int, m: int)
    requires 1 <= m <= 12
    ensures var next := MakeDate(y, m + 1, 1);
      ValidDate(next) && DayNumber(next) == DayNumber(Date(y, m, 1)) + DaysIn(y, m)
  {
    MonthsOfYear(y);
    YearLength(y);
    assert MakeDate(y, m + 1, 1) == if m < 12 then Date(y, m + 1, 1) else Date(y + 1, 1, 1);
  }

  /** MakeDate carries over: day d of a month is d - 1 days after its first. */
  lemma CarriesOver(y: int, m: int, d: int)
    requires 1 <= m <= 12
    ensures var date := MakeDate(y, m + 1, d);
      ValidDate(date) && DayNumber(date) == DayNumber(Date(y, m, 1)) + DaysIn(y, m) + d - 1
  {
    NextMonth(y, m);
    ShiftIsExact(MakeDate(y, m + 1, 1), d - 1);
  }

  /** A cycle with its own start and no end is one month long from any start, the 29th to 31st
      included: as many days as the month of the start has, and the day after it is the start moved
      by one month as the calendar carries it over. */
  lemma OwnStartLastsAMonth(c: Cycle, now: Time)
    requires c.start.Some? && c.end.None? && ValidDate(c.start.value.date)
    ensures var start, end := GetStart(Some(c), now), GetEnd(Some(c), now);
      && start == c.start.value && ValidDate(end.date)
      && DayNumber(end.date) - DayNumber(start.date) + 1 == DaysIn(start.date.year, start.date.month)
      && NextDay(end.date) == AddDate(start, 0, 1, 0).date
  {
    var date := c.start.value.date;
    CarriesOver(date.year, date.month, date.day - 1);
    CarriesOver(date.year, date.month, date.day);
    var end := GetEnd(Some(c), now).date;
    NextDayIsNext(end);
    DayNumbersAreOrdered(NextDay(end), AddDate(c.start.value, 0, 1, 0).date);
  }

  /** A later instant in the same location. */
  predicate After(a: Time, b: Time)
    requires ValidDate(a.date) && ValidDate(b.date)
  {
    DayNumber(a.date) > DayNumber(b.date) || (a.date == b.date && a.clock > b.clock)
  }

  /** The end of the window is midnight at the start of its last day, and it bounds the ledger read:
      so now itself lies after the interval asked for exactly on the last day of the month, past
      midnight, and never before it. */
  lemma LastDayIsCutExactlyWhen(c: Option<Cycle>, now: Time)
    requires Monthly(c) && ValidDate(now.date)
    ensures ValidDate(GetStart(c, now).date) && ValidDate(GetEnd(c, now).date)
    ensures After(now, GetEnd(c, now)) <==> now.date.day == DaysIn(now.date.year, now.date.month) && now.clock > 0
    ensures !After(GetStart(c, now), now)
  {
    MonthEnds(c, now);
    DayNumbersAreOrdered(GetEnd(c, now).date, now.date);
    DayNumbersAreOrdered(now.date, GetStart(c, now).date);
  }

  /** A cycle's own start and end are the window's; without a start it begins at midnight of the first
      of the month, in the location of now. */
  lemma OwnEndsAreKept(c: Cycle, now: Time)
    ensures c.start.Some? ==> GetStart(Some(c), now) == c.start.value
    ensures c.end.Some? ==> GetEnd(Some(c), now) == c.end.value
    ensures c.start.None? && ValidDate(now.date) ==>
        GetStart(Some(c), now) == Time(Date(now.date.year, now.date.month, 1), 0, now.location)
    ensures c.end.None? ==>
        var start, end := GetStart(Some(c), now), GetEnd(Some(c), now);
        end.clock == start.clock && end.location == start.location
  {
  }

  /** The lengths of the months. */
  lemma MonthLengths(y: int, m: int)
    requires 1 <= m <= 12
    ensures DaysIn(y, m) == [31, if IsLeap(y) then 29 else 28, 31, 30, 31, 30, 31, 31, 30, 31, 30, 31][m - 1]
    ensures IsLeap(2000) && !IsLeap(1900) && IsLeap(2024) && !IsLeap(2023)
  {
  }
}
