/** The weekly and five-month transaction charts, with `Date` objects mutated as the service mutates them. */
module Charts {
  import opened Decimal
  import opened Calendar

  datatype Tx = Tx(date: string, amount: real)

  datatype Point = Point(caption: string, date: string, amount: real, percentage: int, isCurrent: bool)

  datatype Range = Daily | Monthly

  // ---------- Dates ----------

  /** A `Date` in a process whose time zone is UTC: milliseconds since 1970. */
  class JsDate {
    var ms: int

    predicate Valid()
      reads this
    {
      ms / MS_PER_DAY + EPOCH_DAY >= 0
    }

    function Day(): nat
      requires Valid()
      reads this
    {
      ms / MS_PER_DAY + EPOCH_DAY
    }

    constructor Copy(other: JsDate)
      ensures ms == other.ms
    {
      ms := other.ms;
    }

    /** `new Date(y, month, d)`; years below 100 are read as twentieth-century ones by the original. */
    constructor FromParts(y: nat, month: int, d: int)
      requires y >= 100 && 12 * y + month >= 0 && DayNumber(y, month, d) >= 0
      ensures Valid() && Day() == DayNumber(y, month, d)
    {
      ms := (DayNumber(y, month, d) - EPOCH_DAY) * MS_PER_DAY;
    }

    method SetDate(d: int)
      requires Valid() && Day() - DateOf(Day()) + d >= 0
      modifies this
      ensures Valid() && Day() == old(Day()) - DateOf(old(Day())) + d
      ensures ms % MS_PER_DAY == old(ms) % MS_PER_DAY
    {
      ShiftDays(ms, d - DateOf(Day()));
      ms := ms + (d - DateOf(Day())) * MS_PER_DAY;
    }

    /** `setHours(0, 0, 0, 0)`: moves to midnight and returns the new time. */
    method SetHoursToZero() returns (t: int)
      requires Valid()
      modifies this
      ensures Valid() && Day() == old(Day())
      ensures t == ms == (Day() - EPOCH_DAY) * MS_PER_DAY
    {
      ms := ms / MS_PER_DAY * MS_PER_DAY;
      t := ms;
    }
  }

  lemma ShiftDays(ms: int, n: int)
    ensures (ms + n * MS_PER_DAY) / MS_PER_DAY == ms / MS_PER_DAY + n
    ensures (ms + n * MS_PER_DAY) % MS_PER_DAY == ms % MS_PER_DAY
  {
  }

  // ---------- Sums ----------

  /** What the accumulation maps hold: the amounts of the transactions with a given key. */
  ghost function SumWhere(txs: seq<Tx>, keyOf: string -> string, key: string): real {
    if txs == [] then 0.0
    else SumWhere(txs[..|txs| - 1], keyOf, key) +
         if keyOf(txs[|txs| - 1].date) == key then txs[|txs| - 1].amount else 0.0
  }

  function Get(m: map<string, real>, key: string): real {
    if key in m then m[key] else 0.0
  }

  /** The `forEach` that fills the map. */
  method Accumulate(txs: seq<Tx>, keyOf: string -> string) returns (m: map<string, real>)
    ensures forall key :: Get(m, key) == SumWhere(txs, keyOf, key)
  {
    m := map[];
    for i := 0 to |txs|
      invariant forall key :: Get(m, key) == SumWhere(txs[..i], keyOf, key)
    {
      var key := keyOf(txs[i].date);
      assert txs[..i + 1][..i] == txs[..i];
      m := m[key := Get(m, key) + txs[i].amount];
    }
    assert txs[..|txs|] == txs;
  }

  function Total(points: seq<Point>): real {
    if points == [] then 0.0 else Total(points[..|points| - 1]) + points[|points| - 1].amount
  }

  /** The `reduce` behind `totalBalance`. */
  method TotalBalance(points: seq<Point>) returns (total: real)
    ensures total == Total(points)
  {
    total := 0.0;
    for i := 0 to |points|
      invariant total == Total(points[..i])
    {
      assert points[..i + 1][..i] == points[..i];
      total := total + points[i].amount;
    }
    assert points[..|points|] == points;
  }

  // ---------- Percentages ----------

  /** `Math.round`. */
  function Round(x: real): int {
    (x + 0.5).Floor
  }

  function Percentage(previous: real, amount: real): int {
    if previous > 0.0 then Round((amount - previous) / previous * 100.0)
    else if amount > 0.0 then 100 else 0
  }

  /** The shown increment is the true one to the nearest point. */
  lemma PercentageWithinHalf(previous: real, amount: real)
    requires previous > 0.0
    ensures -0.5 < Percentage(previous, amount) as real - (amount - previous) / previous * 100.0 <= 0.5
  {
  }

  // ---------- The weekly chart ----------

  ghost predicate Injective(name: nat -> string) {
    forall a, b | name(a) == name(b) :: a == b
  }

  lemma IsoIsInjective()
    ensures Injective(Iso)
  {
    forall a: nat, b: nat | Iso(a) == Iso(b)
      ensures a == b
    {
      IsoInjective(a, b);
    }
  }

  lemma MonthKeyIsInjective()
    ensures Injective(MonthKey)
  {
    forall a: nat, b: nat | MonthKey(a) == MonthKey(b)
      ensures a == b
    {
      MonthKeyInjective(a, b);
    }
  }

  /** The text before the first `T`. */
  function DayPart(date: string): string {
    date[..TimeMark(date)]
  }

  /** The position of the first `T`, or the end. */
  function TimeMark(date: string): (n: nat)
    ensures n <= |date| && (forall i | 0 <= i < n :: date[i] != 'T') && (n < |date| ==> date[n] == 'T')
  {
    if date == "" || date[0] == 'T' then 0 else
      var n := TimeMark(date[1..]);
      assert forall i | 0 <= i < n :: date[1..][i] != 'T';
      n + 1
  }

  const DAY_LABELS: seq<string> := ["D", "L", "M", "M", "J", "V", "S"]
  const WEEK: seq<string> := ["L", "M", "M", "J", "V", "S", "D"]

  function Monday(today: nat): int {
    today - (Weekday(today) + 6) % 7
  }

  /** The date, amount and current flag of one day's point; `iso` names days and is `Iso` in the charts shown. */
  ghost predicate IsDay(p: Point, txs: seq<Tx>, iso: nat -> string, day: nat, today: nat) {
    && p.date == iso(day)
    && p.amount == (if day > today then 0.0 else SumWhere(txs, DayPart, p.date))
    && p.isCurrent == (day == today)
  }

  ghost predicate WeekPoint(points: seq<Point>, txs: seq<Tx>, iso: nat -> string, monday: nat, today: nat, j: nat)
    requires j < |points| <= 7
  {
    && IsDay(points[j], txs, iso, monday + j, today)
    && points[j].caption == WEEK[j]
    && points[j].percentage == (if j == 0 then 0 else Percentage(points[j - 1].amount, points[j].amount))
  }

  /** What the weekly chart must be: the seven days from `monday`, with nothing after `today`. */
  ghost predicate WeekChart(points: seq<Point>, txs: seq<Tx>, iso: nat -> string, monday: nat, today: nat) {
    |points| == 7 && forall j | 0 <= j < 7 :: WeekPoint(points, txs, iso, monday, today, j)
  }

  /** The computed Monday is a Monday, and today is `(dow + 6) % 7` days after it. */
  lemma MondayOfWeek(today: nat)
    requires Monday(today) >= 0
    ensures Weekday(Monday(today)) == 1
    ensures today - Monday(today) == (Weekday(today) + 6) % 7
  {
  }

  /** Exactly one day of the week is today, at index `(dow + 6) % 7`. */
  lemma TodayOnce(points: seq<Point>, txs: seq<Tx>, today: nat, j: nat)
    requires Monday(today) >= 0 && WeekChart(points, txs, Iso, Monday(today), today) && j < 7
    ensures points[j].isCurrent <==> j == (Weekday(today) + 6) % 7
  {
    MondayOfWeek(today);
    assert WeekPoint(points, txs, Iso, Monday(today), today, j);
  }

  lemma WeekCaption(monday: nat, j: nat)
    requires Weekday(monday) == 1 && j < 7
    ensures DAY_LABELS[Weekday(monday + j)] == WEEK[j]
  {
    assert Weekday(monday + j) == (1 + j) % 7;
  }

  lemma Compare(a: int, b: int)
    ensures a * MS_PER_DAY > b * MS_PER_DAY <==> a > b
  {
  }

  /** A copy of `d` moved by `n` days through `setDate`. */
  method Shifted(d: JsDate, n: int) returns (r: JsDate)
    requires d.Valid() && d.Day() + n >= 0
    ensures fresh(r) && r.Valid() && r.Day() == d.Day() + n
  {
    r := new JsDate.Copy(d);
    r.SetDate(DateOf(d.Day()) + n);
  }

  /** Both dates are moved to midnight by the comparison, the caller's `now` included. */
  method IsAfter(day: JsDate, now: JsDate) returns (after: bool)
    requires day.Valid() && now.Valid() && day != now
    modifies day, now
    ensures day.Valid() && now.Valid() && day.Day() == old(day.Day()) && now.Day() == old(now.Day())
    ensures after <==> day.Day() > now.Day()
  {
    var dayStart := day.SetHoursToZero();
    var nowStart := now.SetHoursToZero();
    Compare(day.Day() - EPOCH_DAY, now.Day() - EPOCH_DAY);
    after := dayStart > nowStart;
  }

  lemma WeekGrows(points: seq<Point>, p: Point, txs: seq<Tx>, iso: nat -> string, monday: nat, today: nat)
    requires |points| < 7 && forall j | 0 <= j < |points| :: WeekPoint(points, txs, iso, monday, today, j)
    requires IsDay(p, txs, iso, monday + |points|, today) && p.caption == WEEK[|points|]
    requires p.percentage == if points == [] then 0 else Percentage(points[|points| - 1].amount, p.amount)
    ensures forall j | 0 <= j <= |points| :: WeekPoint(points + [p], txs, iso, monday, today, j)
  {
    forall j | 0 <= j < |points|
      ensures WeekPoint(points + [p], txs, iso, monday, today, j)
    {
      assert WeekPoint(points, txs, iso, monday, today, j);
    }
  }

  /** The Monday of `now`'s week, as a copy. */
  method MondayBefore(now: JsDate) returns (monday: JsDate)
    requires now.Valid() && Monday(now.Day()) >= 0
    ensures fresh(monday) && monday.Valid() && monday.Day() == Monday(now.Day()) && Weekday(monday.Day()) == 1
  {
    MondayOfWeek(now.Day());
    var distanceToMonday := (Weekday(now.Day()) + 6) % 7;
    monday := Shifted(now, -distanceToMonday);
  }

  method BuildDailyData(txs: seq<Tx>, now: JsDate) returns (result: seq<Point>)
    requires now.Valid() && Monday(now.Day()) >= 0
    modifies now
    ensures WeekChart(result, txs, Iso, Monday(old(now.Day())), old(now.Day()))
  {
    var todayStr := Iso(now.Day());
    var amounts := Accumulate(txs, DayPart);
    var monday := MondayBefore(now);
    IsoIsInjective();
    result := WeekFrom(txs, amounts, Iso, todayStr, monday, now);
  }

  /** The `i`-th day from Monday, its label, and whether it lies after today. */
  method CurrentDay(monday: JsDate, now: JsDate, i: nat) returns (day: nat, isFuture: bool, caption: string)
    requires monday != now && monday.Valid() && now.Valid() && Weekday(monday.Day()) == 1 && i < 7
    modifies now
    ensures now.Valid() && now.Day() == old(now.Day())
    ensures day == monday.Day() + i && (isFuture <==> day > now.Day()) && caption == WEEK[i]
  {
    var currentDay := Shifted(monday, i);
    day := currentDay.Day();
    isFuture := IsAfter(currentDay, now);
    WeekCaption(day - i, i);
    caption := DAY_LABELS[Weekday(day)];
  }

  /** One day's point from its parts, the percentage still zero. */
  function DayPointOf(amounts: map<string, real>, dateStr: string, todayStr: string, isFuture: bool, caption: string): Point {
    Point(caption, dateStr, if isFuture then 0.0 else Get(amounts, dateStr), 0, dateStr == todayStr)
  }

  /** The seven-day loop; `iso` gives a day's ISO date. */
  method WeekFrom(ghost txs: seq<Tx>, amounts: map<string, real>, iso: nat -> string, todayStr: string, monday: JsDate, now: JsDate)
    returns (result: seq<Point>)
    requires monday != now && monday.Valid() && now.Valid() && Weekday(monday.Day()) == 1
    requires Injective(iso) && todayStr == iso(now.Day())
    requires forall key :: Get(amounts, key) == SumWhere(txs, DayPart, key)
    modifies now
    ensures WeekChart(result, txs, iso, old(monday.Day()), old(now.Day()))
  {
    ghost var start, today := monday.Day(), now.Day();
    result := [];
    for i := 0 to 7
      invariant now.Valid() && now.Day() == today && monday.Valid() && monday.Day() == start
      invariant |result| == i && forall j | 0 <= j < i :: WeekPoint(result, txs, iso, start, today, j)
    {
      var day, isFuture, caption := CurrentDay(monday, now, i);
      var p := DayPointOf(amounts, iso(day), todayStr, isFuture, caption);
      p := p.(percentage := if i > 0 then Percentage(result[i - 1].amount, p.amount) else 0);
      WeekGrows(result, p, txs, iso, start, today);
      result := result + [p];
    }
  }

  // ---------- The monthly chart ----------

  /** The first seven characters, or the whole string when it is shorter. */
  function MonthPart(date: string): string {
    if |date| < 7 then date else date[..7]
  }

  const MONTH_NAMES: seq<string> :=
    ["Ene", "Feb", "Mar", "Abr", "May", "Jun", "Jul", "Ago", "Sep", "Oct", "Nov", "Dic"]

  function MonthTitle(k: nat): string {
    MONTH_NAMES[k % 12]
  }

  /** All of one month's point but the percentage; `key` and `title` are `MonthKey` and `MonthTitle`. */
  ghost predicate IsMonth(p: Point, txs: seq<Tx>, key: nat -> string, title: nat -> string, k: nat, month: nat) {
    && p.caption == title(k)
    && p.date == key(k)
    && p.amount == SumWhere(txs, MonthPart, p.date)
    && p.isCurrent == (k == month)
  }

  ghost predicate MonthPoint(points: seq<Point>, txs: seq<Tx>, key: nat -> string, title: nat -> string, month: nat, j: nat)
    requires month >= 4 && j < |points| <= 5
  {
    && IsMonth(points[j], txs, key, title, month - 4 + j, month)
    && points[j].percentage == (if j == 0 then 0 else Percentage(points[j - 1].amount, points[j].amount))
  }

  /** What the monthly chart must be: five consecutive months, the last of them the current one. */
  ghost predicate MonthChart(points: seq<Point>, txs: seq<Tx>, month: nat)
    requires month >= 4
  {
    |points| == 5 && forall j | 0 <= j < 5 :: MonthPoint(points, txs, MonthKey, MonthTitle, month, j)
  }

  /** Normalising a month: `new Date(y, m - i, 1)` reads back as the month `i` earlier, across years. */
  lemma EarlierMonth(day: nat, i: nat)
    requires i <= MonthOf(day)
    ensures 12 * Year(day) + (Month(day) - i) == MonthOf(day) - i
    ensures DayNumber(Year(day), Month(day) - i, 1) == MonthFirst(MonthOf(day) - i)
    ensures MonthOf(MonthFirst(MonthOf(day) - i)) == MonthOf(day) - i
  {
    MonthOfUnique(MonthFirst(MonthOf(day) - i), MonthOf(day) - i);
  }

  /** `new Date(y, m + 1, 0)` is the last day of the month. */
  lemma EndOfMonth(day: nat)
    ensures 12 * Year(day) + (Month(day) + 1) == MonthOf(day) + 1
    ensures DayNumber(Year(day), Month(day) + 1, 0) == MonthFirst(MonthOf(day) + 1) - 1 >= 0
  {
    assert 12 * Year(day) + (Month(day) + 1) == MonthOf(day) + 1;
  }

  lemma LateEnough(day: nat)
    requires Year(day) >= 100
    ensures MonthOf(day) >= 1200
  {
  }

  lemma MonthGrows(points: seq<Point>, p: Point, txs: seq<Tx>, key: nat -> string, title: nat -> string, month: nat)
    requires month >= 4 && |points| < 5 && forall j | 0 <= j < |points| :: MonthPoint(points, txs, key, title, month, j)
    requires IsMonth(p, txs, key, title, month - 4 + |points|, month)
    requires p.percentage == if points == [] then 0 else Percentage(points[|points| - 1].amount, p.amount)
    ensures forall j | 0 <= j <= |points| :: MonthPoint(points + [p], txs, key, title, month, j)
  {
    forall j | 0 <= j < |points|
      ensures MonthPoint(points + [p], txs, key, title, month, j)
    {
      assert MonthPoint(points, txs, key, title, month, j);
    }
  }

  lemma KeyOfDay(day: nat, k: nat)
    requires MonthOf(day) == k
    ensures Digits(Year(day)) + "-" + Pad2(Month(day) + 1) == MonthKey(k) && Month(day) == k % 12
  {
  }

  /** The key and the number of the month `i` before `now`'s. */
  method EarlierKey(now: JsDate, i: nat) returns (key: string, month: nat)
    requires now.Valid() && Year(now.Day()) >= 100 && i <= 4
    ensures MonthOf(now.Day()) >= 4 && key == MonthKey(MonthOf(now.Day()) - i) && month == (MonthOf(now.Day()) - i) % 12
  {
    ghost var k := MonthOf(now.Day()) - i;
    LateEnough(now.Day());
    EarlierMonth(now.Day(), i);
    var d := new JsDate.FromParts(Year(now.Day()), Month(now.Day()) - i, 1);
    var day := d.Day();
    KeyOfDay(day, k);
    key := Digits(Year(day)) + "-" + Pad2(Month(day) + 1);
    month := Month(day);
  }

  /** One turn of the five-month loop, before the percentage. */
  method MonthlyPoint(ghost txs: seq<Tx>, amounts: map<string, real>, currentMonthKey: string, now: JsDate, i: nat)
    returns (p: Point)
    requires now.Valid() && Year(now.Day()) >= 100 && i <= 4 && currentMonthKey == MonthKey(MonthOf(now.Day()))
    requires forall key :: Get(amounts, key) == SumWhere(txs, MonthPart, key)
    ensures MonthOf(now.Day()) >= 4 && IsMonth(p, txs, MonthKey, MonthTitle, MonthOf(now.Day()) - i, MonthOf(now.Day())) && p.percentage == 0
  {
    var key, month := EarlierKey(now, i);
    MonthKeyInjective(MonthOf(now.Day()) - i, MonthOf(now.Day()));
    p := Point(MONTH_NAMES[month], key, Get(amounts, key), 0, key == currentMonthKey);
  }

  method BuildMonthlyData(txs: seq<Tx>, now: JsDate) returns (result: seq<Point>)
    requires now.Valid() && Year(now.Day()) >= 100
    ensures MonthOf(now.Day()) >= 4 && MonthChart(result, txs, MonthOf(now.Day()))
  {
    LateEnough(now.Day());
    var currentMonthKey := Digits(Year(now.Day())) + "-" + Pad2(Month(now.Day()) + 1);
    var amounts := Accumulate(txs, MonthPart);
    result := FiveMonths(txs, amounts, currentMonthKey, now, MonthOf(now.Day()));
  }

  /** The five-month loop. */
  method FiveMonths(ghost txs: seq<Tx>, amounts: map<string, real>, currentMonthKey: string, now: JsDate, ghost month: nat)
    returns (result: seq<Point>)
    requires now.Valid() && Year(now.Day()) >= 100 && month == MonthOf(now.Day()) && month >= 4 && currentMonthKey == MonthKey(month)
    requires forall key :: Get(amounts, key) == SumWhere(txs, MonthPart, key)
    ensures MonthChart(result, txs, month)
  {
    result := [];
    var i := 4;
    while i >= 0
      invariant -1 <= i <= 4
      invariant |result| == 4 - i && forall j | 0 <= j < 4 - i :: MonthPoint(result, txs, MonthKey, MonthTitle, month, j)
    {
      var p := MonthlyPoint(txs, amounts, currentMonthKey, now, i);
      p := p.(percentage := if |result| > 0 then Percentage(result[|result| - 1].amount, p.amount) else 0);
      MonthGrows(result, p, txs, MonthKey, MonthTitle, month);
      result := result + [p];
      i := i - 1;
    }
  }

  // ---------- The query window ----------

  /** First and last day of the window asked of the ledger. */
  function WindowFrom(range: Range, today: nat): int {
    match range
    case Daily => Monday(today)
    case Monthly => if MonthOf(today) >= 4 then MonthFirst(MonthOf(today) - 4) else -1
  }

  function WindowTo(range: Range, today: nat): int {
    match range
    case Daily => Monday(today) + 6
    case Monthly => MonthFirst(MonthOf(today) + 1) - 1
  }

  method Window(range: Range, now: JsDate) returns (from: string, to: string)
    requires now.Valid() && Year(now.Day()) >= 100 && Monday(now.Day()) >= 0
    ensures WindowFrom(range, now.Day()) >= 0 && from == Iso(WindowFrom(range, now.Day()))
    ensures WindowTo(range, now.Day()) >= 0 && to == Iso(WindowTo(range, now.Day()))
  {
    if range.Daily? {
      var monday, sunday := WeekWindow(now);
      from, to := Iso(monday), Iso(sunday);
    } else {
      var first, last := MonthsWindow(now);
      from, to := Iso(first), Iso(last);
    }
  }

  method WeekWindow(now: JsDate) returns (first: nat, last: nat)
    requires now.Valid() && Monday(now.Day()) >= 0
    ensures first == Monday(now.Day()) && last == first + 6
  {
    var monday := MondayBefore(now);
    var sunday := Shifted(monday, 6);
    first, last := monday.Day(), sunday.Day();
  }

  method MonthsWindow(now: JsDate) returns (first: nat, last: nat)
    requires now.Valid() && Year(now.Day()) >= 100
    ensures MonthOf(now.Day()) >= 4
    ensures first == MonthFirst(MonthOf(now.Day()) - 4) && last == MonthFirst(MonthOf(now.Day()) + 1) - 1
  {
    ghost var today := now.Day();
    LateEnough(today);
    var year, month: int := Year(now.Day()), Month(now.Day());
    EarlierMonth(today, 4);
    var startMonth := new JsDate.FromParts(year, month - 4, 1);
    first := startMonth.Day();
    EndOfMonth(today);
    var endMonth := new JsDate.FromParts(year, month + 1, 0);
    last := endMonth.Day();
  }
}
