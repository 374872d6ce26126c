/** The totals of the two charts: which transactions each one counts, and that each is counted once. */
module ChartTotals {
  import opened Decimal
  import opened Calendar
  import opened Charts

  // ---------- Transactions of a day ----------

  /** A transaction of a known day: its date string is the ISO date followed by anything. */
  datatype Stamped = Stamped(day: nat, rest: string, amount: real)

  function Raw(s: Stamped): Tx {
    Tx(Iso(s.day) + s.rest, s.amount)
  }

  function RawAll(ss: seq<Stamped>): (txs: seq<Tx>)
    ensures |txs| == |ss| && forall i | 0 <= i < |ss| :: txs[i] == Raw(ss[i])
  {
    seq(|ss|, i requires 0 <= i < |ss| => Raw(ss[i]))
  }

  /** The amounts of the transactions dated from `lo` to `hi`, both included. */
  function SumBetween(ss: seq<Stamped>, lo: int, hi: int): real {
    if ss == [] then 0.0
    else SumBetween(ss[..|ss| - 1], lo, hi) +
         if lo <= ss[|ss| - 1].day <= hi then ss[|ss| - 1].amount else 0.0
  }

  /** The amounts of the transactions that count. */
  function SumIf(ss: seq<Stamped>, counts: Stamped -> bool): real {
    if ss == [] then 0.0
    else SumIf(ss[..|ss| - 1], counts) + if counts(ss[|ss| - 1]) then ss[|ss| - 1].amount else 0.0
  }

  lemma {:induction false} SumIfIsBetween(ss: seq<Stamped>, counts: Stamped -> bool, lo: int, hi: int)
    requires forall s | s in ss :: counts(s) <==> lo <= s.day <= hi
    ensures SumIf(ss, counts) == SumBetween(ss, lo, hi)
  {
    if ss != [] {
      SumIfIsBetween(ss[..|ss| - 1], counts, lo, hi);
      assert ss[|ss| - 1] in ss;
    }
  }

  /** The date is alone or followed by a time. */
  predicate WellStamped(s: Stamped) {
    s.rest == "" || s.rest[0] == 'T'
  }

  /** What the weekly chart counts: days in range whose date is set off by a `T` or ends the string. */
  function CountsInWeek(lo: int, hi: int): Stamped -> bool {
    (s: Stamped) => WellStamped(s) && lo <= s.day <= hi
  }

  /** What the monthly chart counts: days in range in the years whose keys and ISO dates agree. */
  function CountsInMonths(lo: int, hi: int): Stamped -> bool {
    (s: Stamped) => 1000 <= Year(s.day) <= 9999 && lo <= s.day <= hi
  }

  /** The monthly chart's window: the first day four months back to the last day of the month. */
  function CountsUpTo(month: nat): Stamped -> bool
    requires month >= 4
  {
    CountsInMonths(MonthFirst(month - 4), MonthFirst(month + 1) - 1)
  }

  // ---------- Buckets ----------

  /** The sum of several buckets. */
  ghost function SumKeys(txs: seq<Tx>, keyOf: string -> string, keys: seq<string>): real {
    if keys == [] then 0.0
    else SumKeys(txs, keyOf, keys[..|keys| - 1]) + SumWhere(txs, keyOf, keys[|keys| - 1])
  }

  predicate Distinct(keys: seq<string>) {
    forall i, j | 0 <= i < j < |keys| :: keys[i] != keys[j]
  }

  /** One more transaction adds its amount to the buckets once if its key is among them, and not at all otherwise. */
  lemma {:induction false} SumKeysStep(txs: seq<Tx>, keyOf: string -> string, keys: seq<string>)
    requires txs != [] && Distinct(keys)
    ensures SumKeys(txs, keyOf, keys) == SumKeys(txs[..|txs| - 1], keyOf, keys) +
                                         if keyOf(txs[|txs| - 1].date) in keys then txs[|txs| - 1].amount else 0.0
  {
    if keys != [] {
      SumKeysStep(txs, keyOf, keys[..|keys| - 1]);
      assert keys == keys[..|keys| - 1] + [keys[|keys| - 1]];
    }
  }

  lemma {:induction false} SumKeysNone(keyOf: string -> string, keys: seq<string>)
    ensures SumKeys([], keyOf, keys) == 0.0
  {
    if keys != [] {
      SumKeysNone(keyOf, keys[..|keys| - 1]);
    }
  }

  /** If a key is among the buckets exactly when its transaction counts, the buckets hold the counted sum. */
  lemma {:induction false} SumKeysIsSum(ss: seq<Stamped>, keyOf: string -> string, keys: seq<string>, counts: Stamped -> bool)
    requires Distinct(keys)
    requires forall s | s in ss :: keyOf(Raw(s).date) in keys <==> counts(s)
    ensures SumKeys(RawAll(ss), keyOf, keys) == SumIf(ss, counts)
  {
    if ss == [] {
      SumKeysNone(keyOf, keys);
    } else {
      var rest := ss[..|ss| - 1];
      SumKeysIsSum(rest, keyOf, keys, counts);
      SumKeysStep(RawAll(ss), keyOf, keys);
      assert RawAll(ss)[..|ss| - 1] == RawAll(rest);
      assert ss[|ss| - 1] in ss;
    }
  }

  function Dates(points: seq<Point>): (r: seq<string>)
    ensures |r| == |points| && forall j | 0 <= j < |points| :: r[j] == points[j].date
  {
    seq(|points|, j requires 0 <= j < |points| => points[j].date)
  }

  lemma {:induction false} TotalIsSumKeys(points: seq<Point>, txs: seq<Tx>, keyOf: string -> string)
    requires forall j | 0 <= j < |points| :: points[j].amount == SumWhere(txs, keyOf, points[j].date)
    ensures Total(points) == SumKeys(txs, keyOf, Dates(points))
  {
    if points != [] {
      TotalIsSumKeys(points[..|points| - 1], txs, keyOf);
      assert Dates(points)[..|points| - 1] == Dates(points[..|points| - 1]);
    }
  }

  lemma {:induction false} TrailingZeros(points: seq<Point>, n: nat)
    requires n <= |points| && forall j | n <= j < |points| :: points[j].amount == 0.0
    ensures Total(points) == Total(points[..n])
  {
    if n < |points| {
      TrailingZeros(points[..|points| - 1], n);
      assert points[..|points| - 1][..n] == points[..n];
    } else {
      assert points[..n] == points;
    }
  }

  /** Consecutive buckets from `first`, each holding the amounts under its key. */
  ghost predicate Bucketed(points: seq<Point>, txs: seq<Tx>, keyOf: string -> string, name: nat -> string, first: nat) {
    forall j | 0 <= j < |points| ::
      points[j].date == name(first + j) && points[j].amount == SumWhere(txs, keyOf, points[j].date)
  }

  /** A key names one of the `n` buckets from `first`. */
  ghost predicate NamesBucket(key: string, name: nat -> string, first: nat, n: nat) {
    exists x: nat :: first <= x < first + n && key == name(x)
  }

  /** A transaction's key names one of the buckets exactly when the transaction counts. */
  ghost predicate Keyed(ss: seq<Stamped>, keyOf: string -> string, name: nat -> string, first: nat, n: nat, counts: Stamped -> bool) {
    forall s | s in ss :: counts(s) <==> NamesBucket(keyOf(Raw(s).date), name, first, n)
  }

  /** Consecutive buckets under an injective naming are distinct and hold exactly their names. */
  lemma ConsecutiveKeys(keys: seq<string>, name: nat -> string, first: nat)
    requires Injective(name) && forall j | 0 <= j < |keys| :: keys[j] == name(first + j)
    ensures Distinct(keys)
    ensures forall key :: key in keys <==> NamesBucket(key, name, first, |keys|)
  {
    forall key
      ensures key in keys <==> NamesBucket(key, name, first, |keys|)
    {
      if key in keys {
        var j :| 0 <= j < |keys| && keys[j] == key;
        assert key == name(first + j);
      }
      if NamesBucket(key, name, first, |keys|) {
        var x: nat :| first <= x < first + |keys| && key == name(x);
        assert keys[x - first] == key;
      }
    }
  }

  /** Conservation for any chart of consecutive buckets: each counted transaction is in exactly one, no other in any. */
  lemma BucketsConserve(points: seq<Point>, ss: seq<Stamped>, keyOf: string -> string, name: nat -> string,
                        first: nat, counts: Stamped -> bool)
    requires Injective(name) && Bucketed(points, RawAll(ss), keyOf, name, first)
    requires Keyed(ss, keyOf, name, first, |points|, counts)
    ensures Total(points) == SumIf(ss, counts)
  {
    ConsecutiveKeys(Dates(points), name, first);
    TotalIsSumKeys(points, RawAll(ss), keyOf);
    SumKeysIsSum(ss, keyOf, Dates(points), counts);
  }

  // ---------- The weekly total ----------

  /** The text before a `T`, after a prefix that has none. */
  lemma DayPartOfIso(prefix: string, rest: string)
    requires 'T' !in prefix
    ensures DayPart(prefix + rest) == prefix + DayPart(rest)
  {
    var whole := prefix + rest;
    assert forall i | 0 <= i < |prefix| :: whole[i] == prefix[i];
    assert forall i | 0 <= i < |rest| :: whole[|prefix| + i] == rest[i];
    MarkUnique(whole, |prefix| + TimeMark(rest));
  }

  lemma MarkUnique(s: string, n: nat)
    requires n <= |s| && (forall i | 0 <= i < n :: s[i] != 'T') && (n < |s| ==> s[n] == 'T')
    ensures TimeMark(s) == n
  {
  }

  /** No ISO date is a proper beginning of another. */
  lemma IsoNotExtended(a: nat, b: nat, extra: string)
    requires Iso(a) + extra == Iso(b)
    ensures extra == ""
  {
    var m, n := |IsoYear(Year(a))|, |IsoYear(Year(b))|;
    IsoParts(a);
    IsoParts(b);
    assert (Iso(a) + extra)[m] == '-' && Iso(b)[n] == '-';
    assert forall i | 0 <= i < m :: (Iso(a) + extra)[i] != '-';
  }

  lemma IsoParts(day: nat)
    ensures var n := |IsoYear(Year(day))|;
            |Iso(day)| == n + 6 && Iso(day)[n] == '-' && forall i | 0 <= i < n :: Iso(day)[i] != '-'
  {
    ValueOfPad2(DateOf(day));
    ValueOfPad2(Month(day) + 1);
    var y := IsoYear(Year(day));
    assert forall i | 0 <= i < |y| :: y[i] != '-';
    assert forall i | 0 <= i < |y| :: Iso(day)[i] == y[i];
  }

  lemma WeekKeyOf(s: Stamped, iso: nat -> string, lo: nat, hi: nat)
    requires lo <= hi && Injective(iso)
    requires WellStamped(s) ==> DayPart(Raw(s).date) == iso(s.day)
    requires !WellStamped(s) ==> forall x: nat :: DayPart(Raw(s).date) != iso(x)
    ensures CountsInWeek(lo, hi)(s) <==> NamesBucket(DayPart(Raw(s).date), iso, lo, hi - lo + 1)
  {
  }

  lemma DayKeyOfStamp(s: Stamped)
    ensures WellStamped(s) ==> DayPart(Raw(s).date) == Iso(s.day)
    ensures !WellStamped(s) ==> forall x: nat :: DayPart(Raw(s).date) != Iso(x)
  {
    IsoLength(s.day);
    DayPartOfIso(Iso(s.day), s.rest);
    if WellStamped(s) {
      assert DayPart(s.rest) == "";
    } else {
      assert DayPart(s.rest) != "";
      forall x: nat
        ensures DayPart(Raw(s).date) != Iso(x)
      {
        if Iso(s.day) + DayPart(s.rest) == Iso(x) {
          IsoNotExtended(s.day, x, DayPart(s.rest));
        }
      }
    }
  }

  lemma WeekKeyed(ss: seq<Stamped>, lo: nat, hi: nat)
    requires lo <= hi
    ensures Keyed(ss, DayPart, Iso, lo, hi - lo + 1, CountsInWeek(lo, hi))
  {
    IsoIsInjective();
    forall s | s in ss
      ensures CountsInWeek(lo, hi)(s) <==> NamesBucket(DayPart(Raw(s).date), Iso, lo, hi - lo + 1)
    {
      DayKeyOfStamp(s);
      WeekKeyOf(s, Iso, lo, hi);
    }
  }

  lemma WeekBucketed(points: seq<Point>, txs: seq<Tx>, iso: nat -> string, monday: nat, today: nat)
    requires monday <= today < monday + 7 && WeekChart(points, txs, iso, monday, today)
    ensures Bucketed(points[..today - monday + 1], txs, DayPart, iso, monday)
    ensures forall j | today - monday + 1 <= j < 7 :: points[j].amount == 0.0
  {
    assert forall j | 0 <= j < 7 :: WeekPoint(points, txs, iso, monday, today, j) && IsDay(points[j], txs, iso, monday + j, today);
  }

  lemma WeekConservesAt(points: seq<Point>, ss: seq<Stamped>, iso: nat -> string, monday: nat, today: nat, counts: Stamped -> bool)
    requires monday <= today < monday + 7 && WeekChart(points, RawAll(ss), iso, monday, today)
    requires Injective(iso) && Keyed(ss, DayPart, iso, monday, today - monday + 1, counts)
    ensures Total(points) == SumIf(ss, counts)
  {
    WeekBucketed(points, RawAll(ss), iso, monday, today);
    TrailingZeros(points, today - monday + 1);
    BucketsConserve(points[..today - monday + 1], ss, DayPart, iso, monday, counts);
  }

  /**
   * For every transaction list, the week's total is the sum of the amounts dated Monday to today whose date is set
   * off by a `T` or ends the string; a date followed by anything else falls in no bucket.
   */
  lemma WeekConserves(points: seq<Point>, ss: seq<Stamped>, today: nat)
    requires Monday(today) >= 0 && WeekChart(points, RawAll(ss), Iso, Monday(today), today)
    ensures Total(points) == SumIf(ss, CountsInWeek(Monday(today), today))
    ensures (forall s | s in ss :: WellStamped(s)) ==> Total(points) == SumBetween(ss, Monday(today), today)
  {
    MondayOfWeek(today);
    IsoIsInjective();
    WeekKeyed(ss, Monday(today), today);
    WeekConservesAt(points, ss, Iso, Monday(today), today, CountsInWeek(Monday(today), today));
    if forall s | s in ss :: WellStamped(s) {
      SumIfIsBetween(ss, CountsInWeek(Monday(today), today), Monday(today), today);
    }
  }

  // ---------- The monthly total ----------

  lemma MonthKeyOfStamp(s: Stamped)
    ensures |Raw(s).date| >= 7 && MonthPart(Raw(s).date) == Iso(s.day)[..7]
    ensures 1000 <= Year(s.day) <= 9999 ==> MonthPart(Raw(s).date) == MonthKey(MonthOf(s.day))
  {
    MonthKeyOfIso(s.day);
    assert Raw(s).date[..7] == Iso(s.day)[..7];
  }

  /** Outside the years 1000 to 9999 the first seven characters of an ISO date are no month's key. */
  lemma NoMonthKey(day: nat, x: nat)
    requires !(1000 <= Year(day) <= 9999)
    ensures |Iso(day)| >= 7 && Iso(day)[..7] != MonthKey(x)
  {
    IsoLength(day);
    if Year(day) > 9999 {
      assert Iso(day)[..7][0] == '+';
      assert IsDigit(MonthKey(x)[0]);
    } else {
      var y := Year(day);
      ValueOfPad2(Month(day) + 1);
      ValueOfPad2(x % 12 + 1);
      FewDigits(y);
      if IsoYear(y) + "-" + Pad2(Month(day) + 1) == MonthKey(x) {
        SuffixesEqual(IsoYear(y) + "-", Pad2(Month(day) + 1), Digits(x / 12) + "-", Pad2(x % 12 + 1));
        SuffixesEqual(IsoYear(y), "-", Digits(x / 12), "-");
        ValueOfZeroPad(Digits(y), 4);
        ValueOfDigits(y);
        ValueOfDigits(x / 12);
      }
    }
  }

  lemma MonthKeyNames(s: Stamped, month: nat)
    requires month >= 4
    ensures CountsInMonths(MonthFirst(month - 4), MonthFirst(month + 1) - 1)(s) <==> NamesBucket(MonthPart(Raw(s).date), MonthKey, month - 4, 5)
  {
    MonthKeyOfStamp(s);
    if 1000 <= Year(s.day) <= 9999 {
      MonthWindow(s.day, month - 4, month + 1);
      NamedOnce(MonthOf(s.day), month - 4, 5);
    } else {
      forall x: nat
        ensures MonthPart(Raw(s).date) != MonthKey(x)
      {
        NoMonthKey(s.day, x);
      }
    }
  }

  lemma NamedOnce(k: nat, first: nat, n: nat)
    ensures NamesBucket(MonthKey(k), MonthKey, first, n) <==> first <= k < first + n
  {
    forall x: nat | MonthKey(k) == MonthKey(x)
      ensures x == k
    {
      MonthKeyInjective(k, x);
    }
  }

  lemma MonthKeyed(ss: seq<Stamped>, month: nat)
    requires month >= 4
    ensures Keyed(ss, MonthPart, MonthKey, month - 4, 5, CountsInMonths(MonthFirst(month - 4), MonthFirst(month + 1) - 1))
  {
    forall s | s in ss
      ensures CountsInMonths(MonthFirst(month - 4), MonthFirst(month + 1) - 1)(s) <==> NamesBucket(MonthPart(Raw(s).date), MonthKey, month - 4, 5)
    {
      MonthKeyNames(s, month);
    }
  }

  lemma MonthBucketed(points: seq<Point>, txs: seq<Tx>, month: nat)
    requires month >= 4 && MonthChart(points, txs, month)
    ensures Bucketed(points, txs, MonthPart, MonthKey, month - 4)
  {
    assert forall j | 0 <= j < 5 :: MonthPoint(points, txs, MonthKey, MonthTitle, month, j) &&
                                    IsMonth(points[j], txs, MonthKey, MonthTitle, month - 4 + j, month);
  }

  lemma MonthsConserveAt(points: seq<Point>, ss: seq<Stamped>, month: nat, counts: Stamped -> bool)
    requires month >= 4 && MonthChart(points, RawAll(ss), month)
    requires Keyed(ss, MonthPart, MonthKey, month - 4, 5, counts)
    ensures Total(points) == SumIf(ss, counts)
  {
    MonthBucketed(points, RawAll(ss), month);
    MonthKeyIsInjective();
    BucketsConserve(points, ss, MonthPart, MonthKey, month - 4, counts);
  }

  /** Days of the five months lie in four-digit years when the current month does and is not in the first of them. */
  lemma WindowYears(day: nat, month: nat)
    requires 1001 <= month / 12 <= 9999 && MonthFirst(month - 4) <= day <= MonthFirst(month + 1) - 1
    ensures 1000 <= Year(day) <= 9999
  {
    MonthWindow(day, month - 4, month + 1);
  }

  /**
   * For every transaction list, the five months' total is the sum of the amounts dated inside the queried window and
   * in a four-digit year; with a current year from 1001 to 9999 that is every amount in the window.
   */
  lemma MonthsConserve(points: seq<Point>, ss: seq<Stamped>, month: nat)
    requires month >= 4 && MonthChart(points, RawAll(ss), month)
    ensures Total(points) == SumIf(ss, CountsUpTo(month))
  {
    MonthKeyed(ss, month);
    MonthsConserveAt(points, ss, month, CountsUpTo(month));
  }

  lemma MonthsConserveAll(points: seq<Point>, ss: seq<Stamped>, month: nat)
    requires 1001 <= month / 12 <= 9999 && MonthChart(points, RawAll(ss), month)
    ensures Total(points) == SumBetween(ss, MonthFirst(month - 4), MonthFirst(month + 1) - 1)
  {
    MonthsConserve(points, ss, month);
    AllCount(ss, month);
    SumIfIsBetween(ss, CountsInMonths(MonthFirst(month - 4), MonthFirst(month + 1) - 1), MonthFirst(month - 4), MonthFirst(month + 1) - 1);
  }

  lemma AllCount(ss: seq<Stamped>, month: nat)
    requires 1001 <= month / 12 <= 9999
    ensures var lo, hi := MonthFirst(month - 4), MonthFirst(month + 1) - 1;
            forall s | s in ss :: CountsInMonths(lo, hi)(s) <==> lo <= s.day <= hi
  {
    forall s | s in ss && MonthFirst(month - 4) <= s.day <= MonthFirst(month + 1) - 1
      ensures 1000 <= Year(s.day) <= 9999
    {
      WindowYears(s.day, month);
    }
  }

  // ---------- The whole answer ----------

  /** The weekly chart and its total for what the ledger returned. */
  method DailyChart(now: JsDate, ghost ss: seq<Stamped>, txs: seq<Tx>) returns (total: real, points: seq<Point>)
    requires now.Valid() && Monday(now.Day()) >= 0 && txs == RawAll(ss)
    modifies now
    ensures WeekChart(points, txs, Iso, Monday(old(now.Day())), old(now.Day()))
    ensures total == SumIf(ss, CountsInWeek(Monday(old(now.Day())), old(now.Day())))
  {
    ghost var today := now.Day();
    points := BuildDailyData(txs, now);
    WeekConserves(points, ss, today);
    total := TotalBalance(points);
  }

  /** The monthly chart and its total for what the ledger returned. */
  method MonthlyChart(now: JsDate, ghost ss: seq<Stamped>, txs: seq<Tx>) returns (total: real, points: seq<Point>)
    requires now.Valid() && Year(now.Day()) >= 100 && txs == RawAll(ss)
    ensures MonthOf(now.Day()) >= 4 && MonthChart(points, txs, MonthOf(now.Day()))
    ensures total == SumIf(ss, CountsUpTo(MonthOf(now.Day())))
  {
    points := BuildMonthlyData(txs, now);
    MonthsConserve(points, ss, MonthOf(now.Day()));
    total := TotalBalance(points);
  }
}
