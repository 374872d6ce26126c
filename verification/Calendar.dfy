/**
 * The proleptic Gregorian calendar as `Date` uses it in UTC. Days are counted from 1 January of year 0 and
 * months from January of year 0, so `new Date(y, m, d)` with an out-of-range month is just month 12 * y + m.
 */
module Calendar {
  import opened Decimal

  const EPOCH_DAY: nat := 719528
  const MS_PER_DAY: nat := 86400000

  predicate Leap(y: nat) {
    y % 4 == 0 && (y % 100 != 0 || y % 400 == 0)
  }

  /** The civil length of the `k`-th month. */
  function MonthLength(k: nat): (n: nat)
    ensures 28 <= n <= 31
  {
    var month := k % 12;
    if month == 1 then if Leap(k / 12) then 29 else 28
    else if month == 3 || month == 5 || month == 8 || month == 10 then 30
    else 31
  }

  /** The first day of the `k`-th month. */
  function MonthFirst(k: nat): nat {
    if k == 0 then 0 else MonthFirst(k - 1) + MonthLength(k - 1)
  }

  // ---------- The closed form of ECMAScript's `DayFromYear` ----------

  function YearFirst(y: nat): int {
    365 * y + (y + 3) / 4 - (y + 99) / 100 + (y + 399) / 400
  }

  lemma QuarterStep(y: nat)
    ensures (y + 4) / 4 == (y + 3) / 4 + if y % 4 == 0 then 1 else 0
  {
  }

  lemma CenturyStep(y: nat)
    ensures (y + 100) / 100 == (y + 99) / 100 + if y % 100 == 0 then 1 else 0
  {
  }

  lemma CycleStep(y: nat)
    ensures (y + 400) / 400 == (y + 399) / 400 + if y % 400 == 0 then 1 else 0
  {
  }

  lemma TimesFour(k: nat)
    ensures 4 * k % 4 == 0
  {
  }

  lemma TimesHundred(k: nat)
    ensures 100 * k % 100 == 0
  {
  }

  lemma FourthYear(y: nat, q: nat)
    requires y == 100 * q
    ensures y % 4 == 0
  {
    TimesFour(25 * q);
    assert y == 4 * (25 * q);
  }

  lemma CenturyYear(y: nat, q: nat)
    requires y == 400 * q
    ensures y % 100 == 0
  {
    TimesHundred(4 * q);
    assert y == 100 * (4 * q);
  }

  lemma LeapRule(y: nat)
    ensures (if y % 4 == 0 then 1 else 0) - (if y % 100 == 0 then 1 else 0) + (if y % 400 == 0 then 1 else 0) == if Leap(y) then 1 else 0
  {
    if y % 100 == 0 {
      FourthYear(y, y / 100);
    }
    if y % 400 == 0 {
      CenturyYear(y, y / 400);
    }
  }

  lemma YearStep(y: nat)
    ensures YearFirst(y + 1) == YearFirst(y) + 365 + if Leap(y) then 1 else 0
  {
    QuarterStep(y);
    CenturyStep(y);
    CycleStep(y);
    LeapRule(y);
  }

  lemma SameYear(k: nat, i: nat)
    requires k % 12 + i < 12
    ensures (k + i) / 12 == k / 12 && (k + i) % 12 == k % 12 + i
  {
  }

  lemma ThreeMonths(k: nat)
    ensures MonthFirst(k + 3) == MonthFirst(k) + MonthLength(k) + MonthLength(k + 1) + MonthLength(k + 2)
  {
    assert MonthFirst(k + 1) == MonthFirst(k) + MonthLength(k);
    assert MonthFirst(k + 2) == MonthFirst(k + 1) + MonthLength(k + 1);
  }

  function QuarterLength(q: nat, leap: bool): nat {
    if q == 0 then if leap then 91 else 90 else if q == 1 then 91 else 92
  }

  lemma QuarterDays(y: nat, q: nat)
    requires q < 4
    ensures MonthFirst(12 * y + 3 * q + 3) == MonthFirst(12 * y + 3 * q) + QuarterLength(q, Leap(y))
  {
    var k := 12 * y + 3 * q;
    assert k / 12 == y && k % 12 == 3 * q;
    SameYear(k, 1);
    SameYear(k, 2);
    ThreeMonths(k);
  }

  lemma YearLength(y: nat)
    ensures MonthFirst(12 * y + 12) == MonthFirst(12 * y) + 365 + if Leap(y) then 1 else 0
  {
    QuarterDays(y, 0);
    QuarterDays(y, 1);
    QuarterDays(y, 2);
    QuarterDays(y, 3);
  }

  /** Adding up civil months gives the leap-year formula, which dates the epoch. */
  lemma {:induction false} ClosedForm(y: nat)
    ensures MonthFirst(12 * y) == YearFirst(y)
    ensures y == 1970 ==> MonthFirst(12 * y) == EPOCH_DAY
  {
    if y > 0 {
      ClosedForm(y - 1);
      YearLength(y - 1);
      YearStep(y - 1);
    }
  }

  // ---------- Reading dates ----------

  lemma {:induction false} MonthsAscend(a: nat, b: nat)
    requires a < b
    ensures MonthFirst(a) < MonthFirst(b)
    decreases b
  {
    if a < b - 1 {
      MonthsAscend(a, b - 1);
    }
  }

  function MonthFrom(day: nat, k: nat): (r: nat)
    requires MonthFirst(k) <= day
    ensures MonthFirst(r) <= day < MonthFirst(r + 1)
    decreases day - MonthFirst(k)
  {
    if day < MonthFirst(k + 1) then k else MonthFrom(day, k + 1)
  }

  /** The month a day falls in. */
  function MonthOf(day: nat): (k: nat)
    ensures MonthFirst(k) <= day < MonthFirst(k + 1)
  {
    MonthFrom(day, 0)
  }

  function Year(day: nat): nat { MonthOf(day) / 12 }

  function Month(day: nat): nat { MonthOf(day) % 12 }

  function DateOf(day: nat): (d: nat)
    ensures 1 <= d <= 31
  {
    day - MonthFirst(MonthOf(day)) + 1
  }

  lemma MonthOfUnique(day: nat, k: nat)
    requires MonthFirst(k) <= day < MonthFirst(k + 1)
    ensures MonthOf(day) == k
  {
    var m := MonthOf(day);
    if m < k {
      if m + 1 < k {
        MonthsAscend(m + 1, k);
      }
    } else if k < m {
      if k + 1 < m {
        MonthsAscend(k + 1, m);
      }
    }
  }

  /** `MakeDay`: the day a year, a month and a day of the month name. */
  function DayNumber(y: nat, month: int, d: int): int
    requires 12 * y + month >= 0
  {
    MonthFirst(12 * y + month) + d - 1
  }

  /** Naming a civil date and reading its year, month and day back are inverse. */
  lemma CivilRoundTrip(y: nat, month: nat, d: nat)
    requires month < 12 && 1 <= d <= MonthLength(12 * y + month)
    ensures Year(DayNumber(y, month, d)) == y && Month(DayNumber(y, month, d)) == month && DateOf(DayNumber(y, month, d)) == d
  {
    MonthOfUnique(DayNumber(y, month, d), 12 * y + month);
  }

  lemma DayRoundTrip(day: nat)
    ensures DayNumber(Year(day), Month(day), DateOf(day)) == day
  {
  }

  /** A day lies between two month starts exactly when its month does. */
  lemma MonthWindow(day: nat, lo: nat, hi: nat)
    ensures MonthFirst(lo) <= day < MonthFirst(hi) <==> lo <= MonthOf(day) < hi
  {
    var m := MonthOf(day);
    if lo < m {
      MonthsAscend(lo, m);
    }
    if m + 1 < lo {
      MonthsAscend(m + 1, lo);
    }
    if hi < m {
      MonthsAscend(hi, m);
    }
    if m + 1 < hi {
      MonthsAscend(m + 1, hi);
    }
  }

  /** 0 is Sunday, as in `getDay`; 1 January 1970 was a Thursday. */
  function Weekday(day: nat): nat {
    (day - EPOCH_DAY + 4) % 7
  }

  // ---------- ISO strings ----------

  function ZeroPad(s: string, width: nat): (r: string)
    ensures |r| == if |s| < width then width else |s|
    ensures (forall i | 0 <= i < |s| :: IsDigit(s[i])) ==> forall i | 0 <= i < |r| :: IsDigit(r[i])
    decreases width - |s|
  {
    if |s| >= width then s else ZeroPad("0" + s, width)
  }

  /** `toISOString` writes four digits, or a sign and six digits past year 9999. */
  function IsoYear(y: nat): string {
    if y <= 9999 then ZeroPad(Digits(y), 4) else "+" + ZeroPad(Digits(y), 6)
  }

  /** The date part of the ISO string. */
  function Iso(day: nat): string {
    IsoYear(Year(day)) + "-" + Pad2(Month(day) + 1) + "-" + Pad2(DateOf(day))
  }

  /** The template that names a month in the chart: the year unpadded. */
  function MonthKey(k: nat): string {
    Digits(k / 12) + "-" + Pad2(k % 12 + 1)
  }

  lemma {:induction false} ValueOfLeadingZero(s: string)
    requires forall i | 0 <= i < |s| :: IsDigit(s[i])
    ensures forall i | 0 <= i < |"0" + s| :: IsDigit(("0" + s)[i])
    ensures Value("0" + s) == Value(s)
  {
    var t := "0" + s;
    if s == "" {
      assert t[..0] == "";
    } else {
      ValueOfLeadingZero(s[..|s| - 1]);
      assert t[..|t| - 1] == "0" + s[..|s| - 1];
    }
  }

  lemma {:induction false} ValueOfZeroPad(s: string, width: nat)
    requires forall i | 0 <= i < |s| :: IsDigit(s[i])
    ensures Value(ZeroPad(s, width)) == Value(s)
    decreases width - |s|
  {
    if |s| < width {
      ValueOfLeadingZero(s);
      ValueOfZeroPad("0" + s, width);
    }
  }

  lemma IsoYearSign(y: nat)
    ensures IsoYear(y) != "" && (IsoYear(y)[0] == '+' <==> y > 9999)
  {
  }

  lemma IsoYearInjective(a: nat, b: nat)
    requires IsoYear(a) == IsoYear(b)
    ensures a == b
  {
    IsoYearSign(a);
    IsoYearSign(b);
    ValueOfDigits(a);
    ValueOfDigits(b);
    var width := if a > 9999 then 6 else 4;
    ValueOfZeroPad(Digits(a), width);
    ValueOfZeroPad(Digits(b), width);
    if a > 9999 {
      assert IsoYear(a)[1..] == ZeroPad(Digits(a), 6) && IsoYear(b)[1..] == ZeroPad(Digits(b), 6);
    }
  }

  lemma SuffixesEqual(a: string, b: string, c: string, d: string)
    requires a + b == c + d && |b| == |d|
    ensures a == c && b == d
  {
    assert |a| == |c|;
    assert (a + b)[..|a|] == a && (c + d)[..|c|] == c;
    assert (a + b)[|a|..] == b && (c + d)[|c|..] == d;
  }

  /** Two days have the same ISO date only if they are the same day. */
  lemma IsoInjective(a: nat, b: nat)
    ensures Iso(a) == Iso(b) <==> a == b
  {
    if Iso(a) == Iso(b) {
      ValueOfPad2(DateOf(a));
      ValueOfPad2(DateOf(b));
      ValueOfPad2(Month(a) + 1);
      ValueOfPad2(Month(b) + 1);
      var ya, yb := IsoYear(Year(a)), IsoYear(Year(b));
      var ma, mb := Pad2(Month(a) + 1), Pad2(Month(b) + 1);
      SuffixesEqual(ya + "-" + ma + "-", Pad2(DateOf(a)), yb + "-" + mb + "-", Pad2(DateOf(b)));
      SuffixesEqual(ya + "-" + ma, "-", yb + "-" + mb, "-");
      SuffixesEqual(ya + "-", ma, yb + "-", mb);
      SuffixesEqual(ya, "-", yb, "-");
      IsoYearInjective(Year(a), Year(b));
      DayRoundTrip(a);
      DayRoundTrip(b);
    }
  }

  lemma MonthKeyInjective(a: nat, b: nat)
    ensures MonthKey(a) == MonthKey(b) <==> a == b
  {
    if MonthKey(a) == MonthKey(b) {
      ValueOfPad2(a % 12 + 1);
      ValueOfPad2(b % 12 + 1);
      SuffixesEqual(Digits(a / 12) + "-", Pad2(a % 12 + 1), Digits(b / 12) + "-", Pad2(b % 12 + 1));
      SuffixesEqual(Digits(a / 12), "-", Digits(b / 12), "-");
      DigitsInjective(a / 12, b / 12);
    }
  }

  lemma IsoLength(day: nat)
    ensures |Iso(day)| >= 10
    ensures Year(day) <= 9999 ==> Iso(day)[..7] == IsoYear(Year(day)) + "-" + Pad2(Month(day) + 1)
    ensures 'T' !in Iso(day)
  {
    ValueOfPad2(DateOf(day));
    ValueOfPad2(Month(day) + 1);
    FewDigits(Year(day));
    assert forall i | 0 <= i < |IsoYear(Year(day))| :: IsoYear(Year(day))[i] != 'T';
  }

  lemma FewDigits(n: nat)
    ensures n <= 9999 ==> |Digits(n)| <= 4
    ensures n < 1000 ==> |Digits(n)| < 4
  {
    if 1000 <= n <= 9999 {
      FourDigits(n);
    } else if 100 <= n < 1000 {
      assert |Digits(n / 10 / 10)| == 1;
      assert |Digits(n / 10)| == 2;
    } else if 10 <= n < 100 {
      assert |Digits(n / 10)| == 1;
    }
  }

  /** The first seven characters of an ISO date are its month's key exactly in the years 1000 to 9999. */
  lemma MonthKeyOfIso(day: nat)
    ensures |Iso(day)| >= 7
    ensures Iso(day)[..7] == MonthKey(MonthOf(day)) <==> 1000 <= Year(day) <= 9999
  {
    IsoLength(day);
    ValueOfPad2(Month(day) + 1);
    FewDigits(Year(day));
    if Year(day) > 9999 {
      assert Iso(day)[0] == '+';
      assert Iso(day)[..7][0] == '+';
      assert IsDigit(MonthKey(MonthOf(day))[0]);
    } else if Year(day) >= 1000 {
      FourDigits(Year(day));
    }
  }
}
