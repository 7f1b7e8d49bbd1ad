/** The strings under which the cache keeps usage counters. */
module CacheKeys {
  import opened Options
  import opened Calendar

  function Digit(n: nat): char
    requires n < 10
  {
    "0123456789"[n]
  }

  function DigitValue(c: char): nat {
    if '0' <= c <= '9' then c as nat - '0' as nat else 0
  }

  function Decimal(n: nat): string {
    if n < 10 then [Digit(n)] else Decimal(n / 10) + [Digit(n % 10)]
  }

  function Zeros(n: nat): string {
    if n == 0 then "" else Zeros(n - 1) + "0"
  }

  /** Zero-padded to at least this width. */
  function Padded(n: nat, width: nat): string {
    var s := Decimal(n);
    if |s| >= width then s else Zeros(width - |s|) + s
  }

  /** The layout 2006-01-02: the full-date form of section 5.6 of RFC 3339 for the years it covers. */
  function FormatDate(d: Date): string
    requires d.month >= 0 && d.day >= 0
  {
    FormatYear(d.year) + ("-" + (Padded(d.month, 2) + ("-" + Padded(d.day, 2))))
  }

  function FormatYear(y: int): string {
    if y < 0 then "-" + Padded(-y, 4) else Padded(y, 4)
  }

  /** Service.GetName over the generated enumeration; any other number has no name. */
  function GetName(service: nat): string {
    match service
    case 0 => "node-gateway"
    case 1 => "api"
    case 2 => "indexer"
    case 3 => "relayer"
    case 4 => "metadata"
    case 5 => "marketplace"
    case 6 => "builder"
    case 7 => "waas"
    case 8 => "trails"
    case _ => ""
  }

  /** Service.String, the name a limit is kept under; it is not the one in the usage key. */
  function ServiceString(service: nat): string {
    match service
    case 0 => "NodeGateway"
    case 1 => "API"
    case 2 => "Indexer"
    case 3 => "Relayer"
    case 4 => "Metadata"
    case 5 => "Marketplace"
    case 6 => "Builder"
    case 7 => "WaaS"
    case 8 => "Trails"
    case _ => ""
  }

  predicate Known(service: nat) {
    service <= 8
  }

  function AfterProject(service: Option<nat>, start: Date, end: Date): string
    requires ValidDate(start) && ValidDate(end)
  {
    var window := FormatDate(start) + (":" + FormatDate(end));
    if service.None? then window else GetName(service.value) + (":" + window)
  }

  function KeyOf(projectId: nat, service: Option<nat>, start: Date, end: Date): string
    requires ValidDate(start) && ValidDate(end)
  {
    "project:" + (Decimal(projectId) + (":" + AfterProject(service, start, end)))
  }

  function CacheKeyQuota(projectId: nat, cycle: Option<Cycle>, service: Option<nat>, now: Time): string
    requires ValidDate(GetStart(cycle, now).date) && ValidDate(GetEnd(cycle, now).date)
  {
    KeyOf(projectId, service, GetStart(cycle, now).date, GetEnd(cycle, now).date)
  }

  function ParseDecimal(s: string): nat {
    if s == "" then 0 else 10 * ParseDecimal(s[..|s| - 1]) + DigitValue(s[|s| - 1])
  }

  predicate AllDigits(s: string) {
    forall i :: 0 <= i < |s| ==> '0' <= s[i] <= '9'
  }

  /** Decimal notation round-trips. */
  lemma {:induction false} DecimalRoundTrip(n: nat)
    ensures ParseDecimal(Decimal(n)) == n
  {
    if n >= 10 {
      DecimalRoundTrip(n / 10);
      assert Decimal(n)[..|Decimal(n)| - 1] == Decimal(n / 10);
    }
  }

  lemma {:induction false} DecimalShape(n: nat)
    ensures AllDigits(Decimal(n)) && |Decimal(n)| >= 1
    ensures n < 10 ==> |Decimal(n)| <= 1
    ensures n < 100 ==> |Decimal(n)| <= 2
    ensures n < 1000 ==> |Decimal(n)| <= 3
    ensures n < 10000 ==> |Decimal(n)| <= 4
  {
    if n >= 10 {
      DecimalShape(n / 10);
      DigitsAppend(Decimal(n / 10), [Digit(n % 10)]);
    }
  }

  lemma {:induction false} ZerosShape(k: nat)
    ensures |Zeros(k)| == k && AllDigits(Zeros(k))
  {
    if k > 0 {
      ZerosShape(k - 1);
    }
  }

  lemma {:induction false} ZerosAreZero(k: nat)
    ensures ParseDecimal(Zeros(k)) == 0
  {
    if k > 0 {
      ZerosAreZero(k - 1);
      assert Zeros(k)[..|Zeros(k)| - 1] == Zeros(k - 1);
    }
  }

  lemma {:induction false} LeadingZeros(k: nat, s: string)
    ensures ParseDecimal(Zeros(k) + s) == ParseDecimal(s)
    decreases |s|
  {
    ZerosAreZero(k);
    if s == "" {
      assert Zeros(k) + s == Zeros(k);
    } else {
      var t := Zeros(k) + s;
      LeadingZeros(k, s[..|s| - 1]);
      assert t[..|t| - 1] == Zeros(k) + s[..|s| - 1];
      assert t[|t| - 1] == s[|s| - 1];
    }
  }

  lemma DigitsAppend(a: string, b: string)
    requires AllDigits(a) && AllDigits(b)
    ensures AllDigits(a + b) && |a + b| == |a| + |b|
  {
  }

  /** Padding keeps digits digits, and makes two of a small number. */
  lemma PaddedShape(n: nat, width: nat)
    ensures AllDigits(Padded(n, width)) && |Padded(n, width)| >= 1
    ensures n < 100 && width == 2 ==> |Padded(n, width)| == 2
    ensures n < 10000 && width == 4 ==> |Padded(n, width)| == 4
  {
    DecimalShape(n);
    var s := Decimal(n);
    if |s| < width {
      ZerosShape(width - |s|);
      DigitsAppend(Zeros(width - |s|), s);
    }
  }

  lemma PaddedParses(n: nat, width: nat)
    ensures ParseDecimal(Padded(n, width)) == n
  {
    DecimalRoundTrip(n);
    var s := Decimal(n);
    if |s| < width {
      LeadingZeros(width - |s|, s);
    }
  }

  /** Numbers padded alike are equal. */
  lemma PaddedDiffer(a: nat, b: nat, width: nat)
    requires Padded(a, width) == Padded(b, width)
    ensures a == b
  {
    PaddedParses(a, width);
    PaddedParses(b, width);
  }

  lemma YearSign(y: int)
    ensures |FormatYear(y)| >= 1 && (FormatYear(y)[0] == '-' <==> y < 0)
    ensures ':' !in FormatYear(y)
    ensures y < 0 ==> FormatYear(y)[1..] == Padded(-y, 4)
  {
    PaddedShape(if y < 0 then -y else y, 4);
  }

  lemma YearsDiffer(a: int, b: int)
    requires FormatYear(a) == FormatYear(b)
    ensures a == b
  {
    YearSign(a);
    YearSign(b);
    PaddedDiffer(if a < 0 then -a else a, if b < 0 then -b else b, 4);
  }

  /** Equal strings split at the same place have equal parts. */
  lemma SplitAt(a: string, x: string, b: string, y: string)
    requires a + x == b + y && |a| == |b|
    ensures a == b && x == y
  {
    assert (a + x)[..|a|] == a && (b + y)[..|b|] == b;
    assert (a + x)[|a|..] == x && (b + y)[|b|..] == y;
  }

  lemma SplitDate(y1: string, m1: string, d1: string, y2: string, m2: string, d2: string)
    requires |m1| == |m2| == 2 && |d1| == |d2| == 2
    requires y1 + ("-" + (m1 + ("-" + d1))) == y2 + ("-" + (m2 + ("-" + d2)))
    ensures y1 == y2 && m1 == m2 && d1 == d2
  {
    SplitAt(y1, "-" + (m1 + ("-" + d1)), y2, "-" + (m2 + ("-" + d2)));
    SplitAt("-", m1 + ("-" + d1), "-", m2 + ("-" + d2));
    SplitAt(m1, "-" + d1, m2, "-" + d2);
    SplitAt("-", d1, "-", d2);
  }

  /** Two dates are written alike only if they are the same day. */
  lemma DatesDiffer(a: Date, b: Date)
    requires ValidDate(a) && ValidDate(b) && FormatDate(a) == FormatDate(b)
    ensures a == b
  {
    PaddedShape(a.month, 2);
    PaddedShape(a.day, 2);
    PaddedShape(b.month, 2);
    PaddedShape(b.day, 2);
    SplitDate(FormatYear(a.year), Padded(a.month, 2), Padded(a.day, 2),
              FormatYear(b.year), Padded(b.month, 2), Padded(b.day, 2));
    PaddedDiffer(a.month, b.month, 2);
    PaddedDiffer(a.day, b.day, 2);
    YearsDiffer(a.year, b.year);
  }

  lemma NoColon(a: string, b: string)
    requires ':' !in a && ':' !in b
    ensures ':' !in a + b
  {
  }

  lemma DatesHaveNoColon(d: Date)
    requires ValidDate(d)
    ensures ':' !in FormatDate(d)
  {
    YearSign(d.year);
    PaddedShape(d.month, 2);
    PaddedShape(d.day, 2);
    NoColon("-", Padded(d.day, 2));
    NoColon(Padded(d.month, 2), "-" + Padded(d.day, 2));
    NoColon("-", Padded(d.month, 2) + ("-" + Padded(d.day, 2)));
    NoColon(FormatYear(d.year), "-" + (Padded(d.month, 2) + ("-" + Padded(d.day, 2))));
  }

  /** Where the first colon is. */
  function FirstColon(s: string): nat {
    if s == "" || s[0] == ':' then 0 else 1 + FirstColon(s[1..])
  }

  lemma {:induction false} FirstColonAfter(a: string, r: string)
    requires ':' !in a
    ensures FirstColon(a + (":" + r)) == |a|
    decreases |a|
  {
    if a == "" {
      assert a + (":" + r) == ":" + r;
    } else {
      assert (a + (":" + r))[1..] == a[1..] + (":" + r);
      FirstColonAfter(a[1..], r);
    }
  }

  /** A string splits at its first colon in one way only. */
  lemma SplitAtColon(a: string, r: string, b: string, q: string)
    requires ':' !in a && ':' !in b && a + (":" + r) == b + (":" + q)
    ensures a == b && r == q
  {
    FirstColonAfter(a, r);
    FirstColonAfter(b, q);
    SplitAt(a, ":" + r, b, ":" + q);
    SplitAt(":", r, ":", q);
  }

  lemma NamesHaveNoColon(service: nat)
    ensures ':' !in GetName(service)
  {
  }

  lemma NamesDiffer(a: nat, b: nat)
    ensures GetName(a) == GetName(b) <==> a == b || (!Known(a) && !Known(b))
  {
  }

  /** Both absent, the same known service, or both without a name. */
  predicate SameService(a: Option<nat>, b: Option<nat>) {
    a == b || (a.Some? && b.Some? && !Known(a.value) && !Known(b.value))
  }

  lemma WindowsDiffer(s1: Date, e1: Date, s2: Date, e2: Date)
    requires ValidDate(s1) && ValidDate(e1) && ValidDate(s2) && ValidDate(e2)
    requires FormatDate(s1) + (":" + FormatDate(e1)) == FormatDate(s2) + (":" + FormatDate(e2))
    ensures s1 == s2 && e1 == e2
  {
    DatesHaveNoColon(s1);
    DatesHaveNoColon(s2);
    SplitAtColon(FormatDate(s1), FormatDate(e1), FormatDate(s2), FormatDate(e2));
    DatesDiffer(s1, s2);
    DatesDiffer(e1, e2);
  }

  /** A key with a service name has one colon more than one without, so they never meet. */
  lemma ServiceIsVisible(service: nat, s1: Date, e1: Date, s2: Date, e2: Date)
    requires ValidDate(s1) && ValidDate(e1) && ValidDate(s2) && ValidDate(e2)
    ensures AfterProject(Some(service), s1, e1) != AfterProject(None, s2, e2)
  {
    var window := FormatDate(s1) + (":" + FormatDate(e1));
    assert window[|FormatDate(s1)|] == ':';
    NamesHaveNoColon(service);
    DatesHaveNoColon(s2);
    DatesHaveNoColon(e2);
    if GetName(service) + (":" + window) == FormatDate(s2) + (":" + FormatDate(e2)) {
      SplitAtColon(GetName(service), window, FormatDate(s2), FormatDate(e2));
      assert false;
    }
  }

  /** Usage-key faithfulness: two keys are equal if and only if project, service, start date and
      end date are; only services outside the enumeration share a name. */
  lemma KeysAreFaithful(p1: nat, v1: Option<nat>, s1: Date, e1: Date, p2: nat, v2: Option<nat>, s2: Date, e2: Date)
    requires ValidDate(s1) && ValidDate(e1) && ValidDate(s2) && ValidDate(e2)
    ensures KeyOf(p1, v1, s1, e1) == KeyOf(p2, v2, s2, e2)
      <==> p1 == p2 && SameService(v1, v2) && s1 == s2 && e1 == e2
  {
    if v1.Some? && v2.Some? {
      NamesDiffer(v1.value, v2.value);
    }
    if KeyOf(p1, v1, s1, e1) == KeyOf(p2, v2, s2, e2) {
      EqualKeys(p1, v1, s1, e1, p2, v2, s2, e2);
    }
  }

  lemma EqualKeys(p1: nat, v1: Option<nat>, s1: Date, e1: Date, p2: nat, v2: Option<nat>, s2: Date, e2: Date)
    requires ValidDate(s1) && ValidDate(e1) && ValidDate(s2) && ValidDate(e2)
    requires KeyOf(p1, v1, s1, e1) == KeyOf(p2, v2, s2, e2)
    ensures p1 == p2 && SameService(v1, v2) && s1 == s2 && e1 == e2
  {
    var r1, r2 := AfterProject(v1, s1, e1), AfterProject(v2, s2, e2);
    assert KeyOf(p1, v1, s1, e1)[8..] == Decimal(p1) + (":" + r1);
    assert KeyOf(p2, v2, s2, e2)[8..] == Decimal(p2) + (":" + r2);
    DecimalRoundTrip(p1);
    DecimalRoundTrip(p2);
    DecimalShape(p1);
    DecimalShape(p2);
    SplitAtColon(Decimal(p1), r1, Decimal(p2), r2);
    if v1.None? && v2.None? {
      WindowsDiffer(s1, e1, s2, e2);
    } else if v1.None? {
      ServiceIsVisible(v2.value, s2, e2, s1, e1);
    } else if v2.None? {
      ServiceIsVisible(v1.value, s1, e1, s2, e2);
    } else {
      NamesHaveNoColon(v1.value);
      NamesHaveNoColon(v2.value);
      SplitAtColon(GetName(v1.value), FormatDate(s1) + (":" + FormatDate(e1)),
                   GetName(v2.value), FormatDate(s2) + (":" + FormatDate(e2)));
      WindowsDiffer(s1, e1, s2, e2);
      NamesDiffer(v1.value, v2.value);
    }
  }

  /** With a monthly cycle, two requests of a project and service share a counter exactly when they
      fall in the same calendar month. */
  lemma OneCounterPerMonth(p: nat, c: Option<Cycle>, v: Option<nat>, now: Time, later: Time)
    requires Monthly(c) && ValidDate(now.date) && ValidDate(later.date)
    ensures ValidDate(GetStart(c, now).date) && ValidDate(GetEnd(c, now).date)
    ensures ValidDate(GetStart(c, later).date) && ValidDate(GetEnd(c, later).date)
    ensures CacheKeyQuota(p, c, v, now) == CacheKeyQuota(p, c, v, later) <==> SameMonth(now.date, later.date)
  {
    MonthEnds(c, now);
    MonthEnds(c, later);
    KeysAreFaithful(p, v, GetStart(c, now).date, GetEnd(c, now).date,
                    p, v, GetStart(c, later).date, GetEnd(c, later).date);
  }

  /** Services of the enumeration have limits under different names, none of them empty. */
  lemma LimitNamesDiffer(a: nat, b: nat)
    ensures ServiceString(a) == ServiceString(b) <==> a == b || (!Known(a) && !Known(b))
    ensures ServiceString(a) == "" <==> !Known(a)
  {
    LimitInitials(a);
    LimitInitials(b);
  }

  /** The name of a limit is told by its length and its first letter. */
  lemma LimitInitials(a: nat)
    ensures |ServiceString(a)| ==
      if a == 0 || a == 5 then 11 else if a == 1 then 3 else if a == 2 || a == 3 || a == 6 then 7
      else if a == 4 then 8 else if a == 7 then 4 else if a == 8 then 6 else 0
    ensures a <= 8 ==> ServiceString(a)[0] == ['N', 'A', 'I', 'R', 'M', 'M', 'B', 'W', 'T'][a]
  {
  }

  lemma HyphenParts(y: string, m: string, n: string)
    requires |y| == 4 && |m| == 2 && |n| == 2 && AllDigits(y) && AllDigits(m) && AllDigits(n)
    ensures var s := y + ("-" + (m + ("-" + n)));
      && |s| == 10 && s[4] == '-' && s[7] == '-' && s[..4] == y && s[5..7] == m && s[8..] == n
      && (forall i :: 0 <= i < 10 && i != 4 && i != 7 ==> '0' <= s[i] <= '9')
  {
  }

  /** The text of a date is the full-date form of section 5.6 of RFC 3339: four digits of the year, two
      of the month and two of the day, with hyphens between. */
  lemma FullDateForm(d: Date)
    requires ValidDate(d) && 0 <= d.year < 10000
    ensures var s := FormatDate(d);
      && |s| == 10 && s[4] == '-' && s[7] == '-'
      && (forall i :: 0 <= i < 10 && i != 4 && i != 7 ==> '0' <= s[i] <= '9')
      && ParseDecimal(s[..4]) == d.year && ParseDecimal(s[5..7]) == d.month && ParseDecimal(s[8..]) == d.day
  {
    PaddedShape(d.year, 4);
    PaddedShape(d.month, 2);
    PaddedShape(d.day, 2);
    PaddedParses(d.year, 4);
    PaddedParses(d.month, 2);
    PaddedParses(d.day, 2);
    HyphenParts(Padded(d.year, 4), Padded(d.month, 2), Padded(d.day, 2));
  }

  lemma DecimalTexts()
    ensures Decimal(1) == "1" && Decimal(2) == "2" && Decimal(7) == "7" && Decimal(29) == "29" && Decimal(2024) == "2024"
  {
    assert Decimal(20) == Decimal(2) + "0";
    assert Decimal(202) == Decimal(20) + "2";
    assert Decimal(2024) == Decimal(202) + "4";
    assert Decimal(29) == Decimal(2) + "9";
  }

  lemma DateTexts()
    ensures FormatDate(Date(2024, 2, 1)) == "2024-02-01" && FormatDate(Date(2024, 2, 29)) == "2024-02-29"
  {
    DecimalTexts();
    assert Zeros(1) == "0";
    assert Padded(2024, 4) == "2024" && Padded(2, 2) == "02" && Padded(1, 2) == "01" && Padded(29, 2) == "29";
  }

  lemma WindowText()
    ensures FormatDate(Date(2024, 2, 1)) + (":" + FormatDate(Date(2024, 2, 29))) == "2024-02-01:2024-02-29"
  {
    DateTexts();
  }

  lemma KeyPieces(p: nat, v: nat, start: Date, end: Date, number: string, name: string, window: string)
    requires ValidDate(start) && ValidDate(end) && number == Decimal(p) && name == GetName(v)
    requires window == FormatDate(start) + (":" + FormatDate(end))
    ensures KeyOf(p, Some(v), start, end) == "project:" + (number + (":" + (name + (":" + window))))
    ensures KeyOf(p, None, start, end) == "project:" + (number + (":" + window))
  {
  }

  /** What a key looks like, with a service and without. */
  lemma KeyText()
    ensures var window := "2024-02-01:2024-02-29";
      && KeyOf(7, Some(1), Date(2024, 2, 1), Date(2024, 2, 29)) == "project:" + ("7" + (":" + ("api" + (":" + window))))
      && KeyOf(7, None, Date(2024, 2, 1), Date(2024, 2, 29)) == "project:" + ("7" + (":" + window))
  {
    DecimalTexts();
    WindowText();
    KeyPieces(7, 1, Date(2024, 2, 1), Date(2024, 2, 29), "7", "api", "2024-02-01:2024-02-29");
  }

  /** The names in the keys. */
  lemma NamesInKeys()
    ensures [GetName(0), GetName(1), GetName(2), GetName(3), GetName(4), GetName(5), GetName(6), GetName(7), GetName(8)]
      == ["node-gateway", "api", "indexer", "relayer", "metadata", "marketplace", "builder", "waas", "trails"]
    ensures forall a :: a > 8 ==> GetName(a) == ""
  {
  }
}
