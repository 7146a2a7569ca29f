/** Billing periods (subscriptions/application/services.py:20-38) over the proleptic
    Gregorian calendar. A day number counts days since 1 January of year 1. */
module Calendar {

  datatype Date = Date(year: nat, month: nat, day: nat) {
    predicate Valid() {
      1 <= year && 1 <= month <= 12 && 1 <= day <= MonthLength(year, month)
    }
  }

  datatype Interval = Daily | Weekly | Monthly | Yearly | OtherInterval

  predicate IsLeap(year: int) {
    year % 4 == 0 && (year % 100 != 0 || year % 400 == 0)
  }

  function MonthLength(year: int, month: int): (n: nat)
    ensures 28 <= n <= 31
  {
    if month == 2 then (if IsLeap(year) then 29 else 28)
    else if month == 4 || month == 6 || month == 9 || month == 11 then 30
    else 31
  }

  /** Months since January of year 1. */
  function MonthIndex(d: Date): int {
    12 * (d.year - 1) + d.month - 1
  }

  function LengthOf(index: nat): (n: nat)
    ensures 28 <= n <= 31
  {
    MonthLength(index / 12 + 1, index % 12 + 1)
  }

  /** The first day of the month with this index. */
  function FirstOf(index: nat): (d: Date)
    ensures d.Valid() && d.day == 1
    ensures MonthIndex(d) == index && MonthLength(d.year, d.month) == LengthOf(index)
  {
    var year, month := index / 12, index % 12;
    assert index == 12 * year + month;
    Date(year + 1, month + 1, 1)
  }

  /** Days before the first day of the month with this index. */
  function DaysBefore(index: nat): nat {
    if index == 0 then 0 else DaysBefore(index - 1) + LengthOf(index - 1)
  }

  function DayNumber(d: Date): nat
    requires d.Valid()
  {
    DaysBefore(MonthIndex(d)) + d.day - 1
  }

  lemma WithinMonth(index: nat, rest: nat)
    requires rest < LengthOf(index)
    ensures FirstOf(index).(day := rest + 1).Valid()
    ensures DayNumber(FirstOf(index).(day := rest + 1)) == DaysBefore(index) + rest
  {
    hide LengthOf, MonthLength, FirstOf, DaysBefore;
    var first := FirstOf(index);
    assert MonthIndex(first.(day := rest + 1)) == MonthIndex(first);
  }

  /** The date `rest` days after the first day of month `index`. */
  function Locate(rest: nat, index: nat): (d: Date)
    ensures d.Valid()
    ensures DayNumber(d) == DaysBefore(index) + rest
    decreases rest
  {
    if rest < LengthOf(index) then WithinMonth(index, rest); FirstOf(index).(day := rest + 1)
    else
      assert DaysBefore(index + 1) == DaysBefore(index) + LengthOf(index);
      Locate(rest - LengthOf(index), index + 1)
  }

  function DateOf(n: nat): (d: Date)
    ensures d.Valid() && DayNumber(d) == n
  {
    Locate(n, 0)
  }

  /** _add_months: same day of the month, clamped to the length of the target month. */
  function AddMonths(d: Date, months: nat): (r: Date)
    requires d.Valid()
    ensures r.Valid() && MonthIndex(r) == MonthIndex(d) + months
    ensures r.day <= d.day
    ensures r.day == d.day || r.day == LengthOf(MonthIndex(d) + months)
  {
    var total := d.month - 1 + months;
    var year := d.year + total / 12;
    var month := total % 12 + 1;
    var r := Date(year, month, if d.day <= MonthLength(year, month) then d.day else MonthLength(year, month));
    assert MonthIndex(r) == MonthIndex(d) + months;
    assert MonthIndex(r) / 12 + 1 == year && MonthIndex(r) % 12 + 1 == month;
    r
  }

  lemma {:induction false} DaysBeforeGap(lo: nat, hi: nat)
    requires lo < hi
    ensures DaysBefore(lo) + LengthOf(lo) + 28 * (hi - lo - 1) <= DaysBefore(hi)
  {
    if lo + 1 < hi {
      DaysBeforeGap(lo, hi - 1);
    }
  }

  lemma LengthMatches(d: Date)
    requires d.Valid()
    ensures MonthIndex(d) >= 0 && LengthOf(MonthIndex(d)) == MonthLength(d.year, d.month)
  {
    assert MonthIndex(d) / 12 + 1 == d.year && MonthIndex(d) % 12 + 1 == d.month;
  }

  /** Day numbers order dates: month first, then day. */
  lemma DayOrder(a: Date, b: Date)
    requires a.Valid() && b.Valid()
    ensures DayNumber(a) <= DayNumber(b) <==>
            MonthIndex(a) < MonthIndex(b) || (MonthIndex(a) == MonthIndex(b) && a.day <= b.day)
  {
    LengthMatches(a);
    LengthMatches(b);
    if MonthIndex(a) < MonthIndex(b) { DaysBeforeGap(MonthIndex(a), MonthIndex(b)); }
    if MonthIndex(b) < MonthIndex(a) { DaysBeforeGap(MonthIndex(b), MonthIndex(a)); }
  }

  /** A valid date is determined by its day number: DateOf inverts DayNumber. */
  lemma DateRoundTrip(d: Date)
    requires d.Valid()
    ensures DateOf(DayNumber(d)) == d
  {
    DayOrder(DateOf(DayNumber(d)), d);
    DayOrder(d, DateOf(DayNumber(d)));
    LengthMatches(d);
    LengthMatches(DateOf(DayNumber(d)));
  }

  /** One added month advances 28 to 31 days. */
  lemma OneMonthAdvance(d: Date)
    requires d.Valid()
    ensures DayNumber(d) + 28 <= DayNumber(AddMonths(d, 1)) <= DayNumber(d) + 31
  {
    LengthMatches(d);
    LengthMatches(AddMonths(d, 1));
    NextMonth(MonthIndex(d), d.day, AddMonths(d, 1).day);
  }

  lemma NextMonth(index: nat, day: nat, clamped: nat)
    requires 1 <= day <= LengthOf(index)
    requires 1 <= clamped <= day && (clamped == day || clamped == LengthOf(index + 1))
    ensures 28 <= DaysBefore(index + 1) + clamped - DaysBefore(index) - day <= 31
  {
    assert DaysBefore(index + 1) == DaysBefore(index) + LengthOf(index);
  }

  /** The index of the first February at or after a month. */
  function NextFebruary(index: nat): nat {
    if index % 12 <= 1 then index - index % 12 + 1 else index - index % 12 + 13
  }

  /** Moving a twelve-month window by one month: only a February can change its length. */
  lemma WindowStep(index: nat)
    ensures LengthOf(index + 12) - LengthOf(index)
         == LengthOf(NextFebruary(index + 1)) - LengthOf(NextFebruary(index))
  {
    var m, y := index % 12, index / 12;
    assert index == 12 * y + m;
    assert (index + 12) % 12 == m && (index + 12) / 12 == y + 1;
    if m == 11 {
      assert (index + 1) % 12 == 0;
    } else {
      assert (index + 1) % 12 == m + 1;
    }
  }

  /** Any twelve consecutive months hold exactly one February. */
  lemma {:induction false} TwelveMonths(index: nat)
    ensures DaysBefore(index + 12) == DaysBefore(index) + 337 + LengthOf(NextFebruary(index))
  {
    hide LengthOf, NextFebruary;
    if index == 0 {
      FirstYear();
    } else {
      TwelveMonths(index - 1);
      TwelveMonthsLater(index - 1);
    }
  }

  lemma TwelveMonthsLater(index: nat)
    requires DaysBefore(index + 12) == DaysBefore(index) + 337 + LengthOf(NextFebruary(index))
    ensures DaysBefore(index + 13) == DaysBefore(index + 1) + 337 + LengthOf(NextFebruary(index + 1))
  {
    hide LengthOf, NextFebruary;
    WindowStep(index);
    assert DaysBefore(index + 13) == DaysBefore(index + 12) + LengthOf(index + 12);
    assert DaysBefore(index + 1) == DaysBefore(index) + LengthOf(index);
  }

  lemma FirstYear()
    ensures DaysBefore(0 + 12) == DaysBefore(0) + 337 + LengthOf(NextFebruary(0))
  {
    assert DaysBefore(3) == 90;
    assert DaysBefore(6) == DaysBefore(3) + 91;
    assert DaysBefore(9) == DaysBefore(6) + 92;
    assert DaysBefore(12) == DaysBefore(9) + 92;
  }

  /** Only a February changes its length in a year. */
  lemma YearLater(index: nat)
    ensures index % 12 == 1 ==> NextFebruary(index) == index && LengthOf(index + 12) in {28, 29}
    ensures index % 12 != 1 ==> LengthOf(index + 12) == LengthOf(index)
  {
    assert (index + 12) % 12 == index % 12;
  }

  lemma FebruaryLength(index: nat)
    ensures LengthOf(NextFebruary(index)) in {28, 29}
  {
    var m, y := index % 12, index / 12;
    assert index == 12 * y + m;
    assert NextFebruary(index) == 12 * (if m <= 1 then y else y + 1) + 1;
  }

  /** Twelve added months advance 365 or 366 days. */
  lemma TwelveMonthAdvance(d: Date)
    requires d.Valid()
    ensures DayNumber(AddMonths(d, 12)) - DayNumber(d) in {365, 366}
  {
    hide LengthOf, NextFebruary, DaysBefore, MonthLength;
    LengthMatches(d);
    LengthMatches(AddMonths(d, 12));
    TwelveMonths(MonthIndex(d));
    YearLater(MonthIndex(d));
    FebruaryLength(MonthIndex(d));
  }

  /** Adding months keeps the order of dates. */
  lemma AddMonthsMonotone(a: Date, b: Date, months: nat)
    requires a.Valid() && b.Valid() && DayNumber(a) <= DayNumber(b)
    ensures DayNumber(AddMonths(a, months)) <= DayNumber(AddMonths(b, months))
  {
    DayOrder(a, b);
    DayOrder(AddMonths(a, months), AddMonths(b, months));
    LengthMatches(AddMonths(a, months));
    LengthMatches(AddMonths(b, months));
  }

  /** Adding a months then b months lands in the month of a + b months, never later in it;
      it is the same day exactly when clamping at the halfway month loses nothing. */
  lemma AddMonthsCompose(d: Date, a: nat, b: nat)
    requires d.Valid()
    ensures MonthIndex(AddMonths(AddMonths(d, a), b)) == MonthIndex(AddMonths(d, a + b))
    ensures DayNumber(AddMonths(AddMonths(d, a), b)) <= DayNumber(AddMonths(d, a + b))
    ensures AddMonths(AddMonths(d, a), b) == AddMonths(d, a + b) <==>
            (d.day <= LengthOf(MonthIndex(d) + a)
             || LengthOf(MonthIndex(d) + a + b) <= LengthOf(MonthIndex(d) + a))
  {
    hide AddMonths, DayNumber, LengthOf, MonthLength;
    var half, direct := AddMonths(d, a), AddMonths(d, a + b);
    LengthMatches(half);
    LengthMatches(direct);
    LengthMatches(AddMonths(half, b));
    DayOrder(AddMonths(half, b), direct);
  }

  // Instants are microseconds since the start of day 0.
  type Time = nat

  const DAY: nat := 86_400_000_000

  /** The same time of day, on another day. */
  function OnDay(day: nat, t: Time): Time {
    day * DAY + t % DAY
  }

  lemma OnDayMoves(day: nat, t: Time)
    ensures OnDay(day, t) == t + (day - t / DAY) * DAY
  {
    assert t == t / DAY * DAY + t % DAY;
  }

  lemma OnDayKeepsTime(day: nat, t: Time)
    ensures OnDay(day, t) % DAY == t % DAY
  {
  }

  function MonthsLater(start: Time, months: nat): Time {
    OnDay(DayNumber(AddMonths(DateOf(start / DAY), months)), start)
  }

  /** _compute_period_end: the time of day is kept, the date moves by the interval. */
  function PeriodEnd(start: Time, interval: Interval): (end: Time)
    ensures start + DAY <= end <= start + 366 * DAY
    ensures interval.Weekly? ==> end == start + 7 * DAY
    ensures interval.Monthly? ==> start + 28 * DAY <= end <= start + 31 * DAY
    ensures interval.Yearly? ==> end - start in {365 * DAY, 366 * DAY}
  {
    match interval
    case Daily => start + DAY
    case Weekly => start + 7 * DAY
    case Monthly => MonthLater(start); MonthsLater(start, 1)
    case Yearly => YearsLater(start); MonthsLater(start, 12)
    case OtherInterval => start + 30 * DAY
  }

  lemma MonthLater(start: Time)
    ensures start + 28 * DAY <= MonthsLater(start, 1) <= start + 31 * DAY
  {
    var d := DateOf(start / DAY);
    OneMonthAdvance(d);
    hide AddMonths, DateOf, DayNumber, OnDay;
    OnDayMoves(DayNumber(AddMonths(d, 1)), start);
  }

  lemma YearsLater(start: Time)
    ensures MonthsLater(start, 12) - start in {365 * DAY, 366 * DAY}
  {
    var d := DateOf(start / DAY);
    TwelveMonthAdvance(d);
    hide AddMonths, DateOf, DayNumber, OnDay;
    OnDayMoves(DayNumber(AddMonths(d, 12)), start);
  }

  /** Billing keeps the time of day. */
  lemma PeriodEndKeepsTime(start: Time, interval: Interval)
    ensures PeriodEnd(start, interval) % DAY == start % DAY
  {
    hide AddMonths, DateOf, DayNumber, OnDay;
    match interval
    case Monthly => OnDayKeepsTime(DayNumber(AddMonths(DateOf(start / DAY), 1)), start);
    case Yearly => OnDayKeepsTime(DayNumber(AddMonths(DateOf(start / DAY), 12)), start);
    case _ =>
  }

  // ---- The calendar and the billing period, in plain terms ----

  /** Thirty days hath September. */
  lemma MonthLengths(year: nat, month: nat)
    ensures month in {4, 6, 9, 11} ==> MonthLength(year, month) == 30
    ensures month in {1, 3, 5, 7, 8, 10, 12} ==> MonthLength(year, month) == 31
    ensures month == 2 ==>
              MonthLength(year, month) ==
              if year % 400 == 0 then 29 else if year % 100 == 0 then 28 else if year % 4 == 0 then 29 else 28
  {
    if year % 400 == 0 {
      assert year == 400 * (year / 400);
      assert year % 4 == 0;
    }
  }

  /** Day 0 is 1 January of year 1, and each day is followed by the next day of its month, or by
      the first day of the next month. */
  lemma NextDay(n: nat)
    ensures DateOf(0) == Date(1, 1, 1)
    ensures
      var d := DateOf(n);
      DateOf(n + 1) ==
      if d.day < MonthLength(d.year, d.month) then d.(day := d.day + 1)
      else if d.month < 12 then Date(d.year, d.month + 1, 1)
      else Date(d.year + 1, 1, 1)
  {
    var d := DateOf(n);
    var next :=
      if d.day < MonthLength(d.year, d.month) then d.(day := d.day + 1)
      else if d.month < 12 then Date(d.year, d.month + 1, 1)
      else Date(d.year + 1, 1, 1);
    FirstDay();
    NextNumber(d, next);
    hide DateOf, DayNumber, MonthLength;
    DateRoundTrip(next);
  }

  lemma FirstDay()
    ensures DateOf(0) == Date(1, 1, 1)
  {
    var first := Date(1, 1, 1);
    assert first.Valid() && DayNumber(first) == 0;
    hide DateOf;
    DateRoundTrip(first);
  }

  lemma NextNumber(d: Date, next: Date)
    requires d.Valid()
    requires
      next ==
      if d.day < MonthLength(d.year, d.month) then d.(day := d.day + 1)
      else if d.month < 12 then Date(d.year, d.month + 1, 1)
      else Date(d.year + 1, 1, 1)
    ensures next.Valid() && DayNumber(next) == DayNumber(d) + 1
  {
    LengthMatches(d);
    if d.day == MonthLength(d.year, d.month) {
      assert MonthIndex(next) == MonthIndex(d) + 1;
      assert DaysBefore(MonthIndex(d) + 1) == DaysBefore(MonthIndex(d)) + LengthOf(MonthIndex(d));
    }
  }

  /** The same time of day, `months` calendar months later, on the last day of that month if it
      is too short. */
  predicate MonthsApart(start: Time, end: Time, months: nat) {
    var (d, e) := (DateOf(start / DAY), DateOf(end / DAY));
    && end % DAY == start % DAY
    && 12 * e.year + e.month == 12 * d.year + d.month + months
    && e.day == if d.day <= MonthLength(e.year, e.month) then d.day else MonthLength(e.year, e.month)
  }

  /** A billing period of the plan's interval. */
  predicate EndsPeriod(start: Time, interval: Interval, end: Time) {
    match interval
    case Daily => end == start + 86_400_000_000
    case Weekly => end == start + 7 * 86_400_000_000
    case Monthly => MonthsApart(start, end, 1)
    case Yearly => MonthsApart(start, end, 12)
    case OtherInterval => end == start + 30 * 86_400_000_000
  }

  lemma MonthsLaterApart(start: Time, months: nat)
    ensures MonthsApart(start, MonthsLater(start, months), months)
  {
    hide AddMonths, DateOf, DayNumber, OnDay, LengthOf, MonthLength;
    var d := DateOf(start / DAY);
    var e := AddMonths(d, months);
    var end := MonthsLater(start, months);
    OnDayKeepsTime(DayNumber(e), start);
    OnDayIs(DayNumber(e), start);
    DateRoundTrip(e);
    LengthMatches(e);
    assert DateOf(end / DAY) == e;
  }

  lemma OnDayIs(day: nat, t: Time)
    ensures OnDay(day, t) / DAY == day
  {
  }

  /** Billing follows the calendar: every period end that is computed is the one above. */
  lemma PeriodEndFollowsCalendar(start: Time, interval: Interval)
    ensures EndsPeriod(start, interval, PeriodEnd(start, interval))
  {
    MonthsLaterApart(start, 1);
    MonthsLaterApart(start, 12);
    hide MonthsApart, MonthsLater;
  }

  /** There is only one such instant. */
  lemma PeriodEndIsUnique(start: Time, interval: Interval, end: Time)
    requires EndsPeriod(start, interval, end)
    ensures end == PeriodEnd(start, interval)
  {
    PeriodEndFollowsCalendar(start, interval);
    var other := PeriodEnd(start, interval);
    hide PeriodEnd, DateOf, MonthLength;
    if interval.Monthly? || interval.Yearly? {
      SameDate(DateOf(end / DAY), DateOf(other / DAY));
      assert end == end / DAY * DAY + end % DAY && other == other / DAY * DAY + other % DAY;
    }
  }

  lemma SameDate(d: Date, e: Date)
    requires d.Valid() && e.Valid() && 12 * d.year + d.month == 12 * e.year + e.month
    requires d.year == e.year && d.month == e.month ==> d.day == e.day
    ensures d == e
  {
  }
}
