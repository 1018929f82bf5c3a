/** Civil dates, aware timestamps and the two date rules of the system: the
    two-year retention rule and the anchored proxy billing cycle. */
module Calendar {
  import opened Options

  const SECOND := 1_000_000
  const DAY := 86_400_000_000

  predicate IsLeap(year: int) {
    year % 4 == 0 && (year % 100 != 0 || year % 400 == 0)
  }

  function DaysInMonth(year: int, month: int): int {
    if month == 2 then (if IsLeap(year) then 29 else 28)
    else if month == 4 || month == 6 || month == 9 || month == 11 then 30
    else 31
  }

  datatype Date = Date(year: int, month: int, day: int)

  predicate ValidDate(d: Date) {
    1 <= d.year <= 9999 && 1 <= d.month <= 12 && 1 <= d.day <= DaysInMonth(d.year, d.month)
  }

  function DaysBeforeYear(year: int): int {
    var y := year - 1;
    365 * y + y / 4 - y / 100 + y / 400
  }

  function DaysBeforeMonth(year: int, month: int): int
    decreases month
  {
    if month <= 1 then 0 else DaysBeforeMonth(year, month - 1) + DaysInMonth(year, month - 1)
  }

  /** The proleptic ordinal of a date. */
  function DayNumber(d: Date): int {
    DaysBeforeYear(d.year) + DaysBeforeMonth(d.year, d.month) + d.day
  }

  /** An aware timestamp: its local date, microseconds of the local day, and offset east of UTC. */
  datatype Moment = Moment(date: Date, clock: int, offset: int)

  predicate ValidMoment(m: Moment) {
    ValidDate(m.date) && 0 <= m.clock < DAY && -DAY < m.offset < DAY
  }

  function Instant(m: Moment): int {
    DayNumber(m.date) * DAY + m.clock - m.offset
  }

  /** `replace(year=...)`, falling back to `replace(year=..., day=28)`; None where both raise. */
  function ShiftYears(m: Moment, years: int): Option<Moment> {
    var year := m.date.year + years;
    var same := Date(year, m.date.month, m.date.day);
    var clipped := Date(year, m.date.month, 28);
    if ValidDate(same) then Some(m.(date := same))
    else if ValidDate(clipped) then Some(m.(date := clipped))
    else None
  }

  function TwoYearsAfter(fetched: Moment): Option<Moment> {
    ShiftYears(fetched, 2)
  }

  function TwoYearCutoff(now: Moment): Option<Moment> {
    ShiftYears(now, -2)
  }

  // ----- ordinals respect the lexicographic order of dates

  predicate DateBefore(a: Date, b: Date) {
    a.year < b.year
    || (a.year == b.year && (a.month < b.month || (a.month == b.month && a.day < b.day)))
  }

  lemma CountMultiples(year: int)
    ensures year / 4 == (year - 1) / 4 + (if year % 4 == 0 then 1 else 0)
    ensures year / 100 == (year - 1) / 100 + (if year % 100 == 0 then 1 else 0)
    ensures year / 400 == (year - 1) / 400 + (if year % 400 == 0 then 1 else 0)
  {
  }

  lemma YearLength(year: int)
    ensures DaysBeforeYear(year + 1) == DaysBeforeYear(year) + (if IsLeap(year) then 366 else 365)
  {
    CountMultiples(year);
    if year % 400 == 0 { CenturyOfFour(year); }
    if year % 100 == 0 { CenturyIsEven(year); }
  }

  lemma Quadruple(n: int)
    ensures 4 * n % 4 == 0
  {
  }

  lemma Hundredfold(n: int)
    ensures 100 * n % 100 == 0
  {
  }

  lemma CenturyIsEven(year: int)
    requires year % 100 == 0
    ensures year % 4 == 0
  {
    var n := 25 * (year / 100);
    assert year == 4 * n;
    Quadruple(n);
  }

  lemma CenturyOfFour(year: int)
    requires year % 400 == 0
    ensures year % 100 == 0
  {
    var n := 4 * (year / 400);
    assert year == 100 * n;
    Hundredfold(n);
  }

  lemma LeapYearsAreApart(year: int)
    ensures IsLeap(year) ==> !IsLeap(year + 1) && !IsLeap(year + 2)
    ensures IsLeap(year + 1) ==> !IsLeap(year + 2)
  {
  }

  lemma MonthTable(year: int)
    ensures DaysBeforeMonth(year, 1) == 0
    ensures DaysBeforeMonth(year, 2) == 31
    ensures DaysBeforeMonth(year, 3) == 59 + (if IsLeap(year) then 1 else 0)
    ensures DaysBeforeMonth(year, 4) == DaysBeforeMonth(year, 3) + 31
    ensures DaysBeforeMonth(year, 5) == DaysBeforeMonth(year, 3) + 61
    ensures DaysBeforeMonth(year, 6) == DaysBeforeMonth(year, 3) + 92
    ensures DaysBeforeMonth(year, 7) == DaysBeforeMonth(year, 3) + 122
    ensures DaysBeforeMonth(year, 8) == DaysBeforeMonth(year, 3) + 153
    ensures DaysBeforeMonth(year, 9) == DaysBeforeMonth(year, 3) + 184
    ensures DaysBeforeMonth(year, 10) == DaysBeforeMonth(year, 3) + 214
    ensures DaysBeforeMonth(year, 11) == DaysBeforeMonth(year, 3) + 245
    ensures DaysBeforeMonth(year, 12) == DaysBeforeMonth(year, 3) + 275
  {
    assert DaysBeforeMonth(year, 3) == DaysBeforeMonth(year, 2) + DaysInMonth(year, 2);
    assert DaysBeforeMonth(year, 5) == DaysBeforeMonth(year, 4) + DaysInMonth(year, 4);
    assert DaysBeforeMonth(year, 7) == DaysBeforeMonth(year, 6) + DaysInMonth(year, 6);
    assert DaysBeforeMonth(year, 9) == DaysBeforeMonth(year, 8) + DaysInMonth(year, 8);
    assert DaysBeforeMonth(year, 11) == DaysBeforeMonth(year, 10) + DaysInMonth(year, 10);
  }

  lemma DayOfYear(d: Date)
    requires ValidDate(d)
    ensures 1 <= DaysBeforeMonth(d.year, d.month) + d.day <= (if IsLeap(d.year) then 366 else 365)
  {
    MonthTable(d.year);
  }

  lemma {:induction false} YearStart(earlier: int, later: int)
    requires earlier <= later
    ensures DaysBeforeYear(later) >= DaysBeforeYear(earlier) + 365 * (later - earlier)
    decreases later - earlier
  {
    if earlier < later {
      YearStart(earlier, later - 1);
      YearLength(later - 1);
    }
  }

  lemma OrdinalRespectsOrder(a: Date, b: Date)
    requires ValidDate(a) && ValidDate(b)
    ensures DateBefore(a, b) <==> DayNumber(a) < DayNumber(b)
    ensures a == b <==> DayNumber(a) == DayNumber(b)
  {
    if DateBefore(a, b) {
      EarlierDate(a, b);
    } else if a != b {
      EarlierDate(b, a);
    }
  }

  lemma EarlierDate(a: Date, b: Date)
    requires ValidDate(a) && ValidDate(b) && DateBefore(a, b)
    ensures DayNumber(a) < DayNumber(b)
  {
    hide IsLeap, DaysBeforeYear, DaysBeforeMonth;
    if a.year < b.year {
      DayOfYear(a);
      DayOfYear(b);
      YearLength(a.year);
      YearStart(a.year + 1, b.year);
    } else if a.month < b.month {
      MonthStart(a.year, a.month, b.month);
    }
  }

  lemma {:induction false} MonthStart(year: int, earlier: int, later: int)
    requires 1 <= earlier < later <= 12
    ensures DaysBeforeMonth(year, earlier) + DaysInMonth(year, earlier) <= DaysBeforeMonth(year, later)
    decreases later
  {
    if earlier < later - 1 {
      MonthStart(year, earlier, later - 1);
    }
  }

  // ----- retention

  /** Days from a date to its two-year expiry. */
  function TwoYearSpan(d: Date): int {
    var beforeMarch := d.month <= 2;
    if IsLeap(d.year) then (if beforeMarch && !(d.month == 2 && d.day == 29) then 731 else 730)
    else if IsLeap(d.year + 1) || (IsLeap(d.year + 2) && !beforeMarch) then 731
    else 730
  }

  lemma {:induction false} MonthShift(year: int, later: int, month: int)
    requires 1 <= month <= 12
    ensures DaysBeforeMonth(later, month) - DaysBeforeMonth(year, month)
            == if month <= 2 then 0 else DaysInMonth(later, 2) - DaysInMonth(year, 2)
    decreases month
  {
    if month > 1 {
      MonthShift(year, later, month - 1);
    }
  }

  /** Two-year expiry on dates: the same day, or 28 February for a leap day. */
  function Anniversary(d: Date): Date {
    Date(d.year + 2, d.month, if d.month == 2 && d.day == 29 then 28 else d.day)
  }

  lemma SpanDays(d: Date)
    requires ValidDate(d)
    ensures DayNumber(Anniversary(d)) == DayNumber(d) + TwoYearSpan(d)
  {
    hide IsLeap, DaysBeforeYear, DaysBeforeMonth;
    var y := d.year;
    YearLength(y);
    YearLength(y + 1);
    MonthShift(y, y + 2, d.month);
    LeapYearsAreApart(y);
  }

  lemma ExpiryInstant(m: Moment)
    requires ValidMoment(m) && m.date.year <= 9997
    ensures TwoYearsAfter(m) == Some(m.(date := Anniversary(m.date)))
    ensures Instant(TwoYearsAfter(m).value) == Instant(m) + TwoYearSpan(m.date) * DAY
  {
    LeapYearsAreApart(m.date.year);
    SpanDays(m.date);
    DaysToMicros(DayNumber(m.date), TwoYearSpan(m.date));
  }

  lemma DaysToMicros(a: int, b: int)
    ensures (a + b) * DAY == a * DAY + b * DAY
  {
  }

  lemma InstantOrder(a: Moment, b: Moment)
    requires ValidMoment(a) && ValidMoment(b) && a.offset == b.offset
    ensures Instant(a) < Instant(b) <==> DateBefore(a.date, b.date) || (a.date == b.date && a.clock < b.clock)
  {
    OrdinalRespectsOrder(a.date, b.date);
    var da, db := DayNumber(a.date), DayNumber(b.date);
    if da < db {
      assert da * DAY + DAY <= db * DAY;
    } else if db < da {
      assert db * DAY + DAY <= da * DAY;
    }
  }

  /** In one time zone, whatever the two-year cutoff reaches has already expired. */
  lemma PurgedHasExpired(fetched: Moment, now: Moment)
    requires ValidMoment(fetched) && ValidMoment(now) && fetched.offset == now.offset
    requires TwoYearCutoff(now).Some?
    requires Instant(fetched) < Instant(TwoYearCutoff(now).value)
    ensures TwoYearsAfter(fetched).Some?
    ensures Instant(TwoYearsAfter(fetched).value) <= Instant(now)
  {
    var cutoff := TwoYearCutoff(now).value;
    InstantOrder(fetched, cutoff);
    var expiry := TwoYearsAfter(fetched).value;
    InstantOrder(now, expiry);
  }

  // ----- captures stamped in another time zone than the purge

  function NextDay(d: Date): Date {
    if d.day < DaysInMonth(d.year, d.month) then d.(day := d.day + 1)
    else if d.month < 12 then Date(d.year, d.month + 1, 1)
    else Date(d.year + 1, 1, 1)
  }

  lemma NextDayNumber(d: Date)
    requires ValidDate(d) && d.year < 9999
    ensures ValidDate(NextDay(d)) && DayNumber(NextDay(d)) == DayNumber(d) + 1
  {
    hide DaysBeforeYear, DaysBeforeMonth, IsLeap;
    if d.day == DaysInMonth(d.year, d.month) {
      if d.month < 12 {
        NextMonth(d.year, d.month);
      } else {
        LastMonth(d.year);
        YearLength(d.year);
      }
    }
  }

  lemma NextMonth(year: int, month: int)
    requires 1 <= month
    ensures DaysBeforeMonth(year, month + 1) == DaysBeforeMonth(year, month) + DaysInMonth(year, month)
  {
  }

  lemma LastMonth(year: int)
    ensures DaysBeforeMonth(year, 12) + DaysInMonth(year, 12) == (if IsLeap(year) then 366 else 365)
    ensures DaysBeforeMonth(year + 1, 1) == 0
  {
    MonthTable(year);
  }

  /** The two-year span differs between neighbouring days only around the end of February. */
  lemma SpanSteps(d: Date)
    requires ValidDate(d)
    ensures TwoYearSpan(NextDay(d)) > TwoYearSpan(d) ==>
              d == Date(d.year, 2, 28) && !IsLeap(d.year) && IsLeap(d.year + 2)
    ensures TwoYearSpan(d) > TwoYearSpan(NextDay(d)) ==>
              NextDay(d) == Date(d.year, 2, 29) && IsLeap(d.year)
  {
    LeapYearsAreApart(d.year);
    LeapYearsAreApart(d.year + 1);
  }

  lemma NeighbouringDates(local: Moment, utc: Moment)
    requires ValidMoment(local) && ValidMoment(utc) && utc.offset == 0
    requires Instant(local) == Instant(utc)
    requires local.date.year <= 9997 && utc.date.year <= 9997
    ensures local.date == utc.date || local.date == NextDay(utc.date) || utc.date == NextDay(local.date)
  {
    var dl, du := DayNumber(local.date), DayNumber(utc.date);
    assert dl * DAY - du * DAY == utc.clock - local.clock + local.offset;
    assert -1 <= dl - du <= 1 by {
      assert -2 * DAY < (dl - du) * DAY < 2 * DAY;
    }
    NextDayNumber(local.date);
    NextDayNumber(utc.date);
    OrdinalRespectsOrder(local.date, utc.date);
    OrdinalRespectsOrder(local.date, NextDay(utc.date));
    OrdinalRespectsOrder(NextDay(local.date), utc.date);
  }

  /** The capture's own zone puts it in a longer two-year span than UTC does. */
  predicate OutlivesItsCutoff(fetched: Moment, utc: Moment) {
    TwoYearSpan(fetched.date) > TwoYearSpan(utc.date)
    && (if utc.date.day == 29 then utc.clock > 0 else utc.clock < DAY - 1)
  }

  /** One capture time, as the worker stamped it and in UTC, with an expiry inside the calendar. */
  predicate SameInstant(fetched: Moment, utc: Moment) {
    ValidMoment(fetched) && ValidMoment(utc) && utc.offset == 0
    && Instant(fetched) == Instant(utc)
    && fetched.date.year <= 9997 && utc.date.year <= 9997
  }

  /** A purge at `now` deletes what was captured at `utc`. */
  predicate CutoffReaches(now: Moment, utc: Moment) {
    ValidMoment(now) && now.offset == 0 && TwoYearCutoff(now).Some?
    && Instant(utc) < Instant(TwoYearCutoff(now).value)
  }

  ghost predicate NeverPurgedEarly(fetched: Moment, utc: Moment) {
    forall now: Moment :: CutoffReaches(now, utc) ==>
      TwoYearsAfter(fetched).Some? && Instant(TwoYearsAfter(fetched).value) <= Instant(now)
  }

  /** Purging by a UTC cutoff spares every unexpired result exactly when the capture is not one of
      the two boundary cases of `OutlivesItsCutoff`. */
  lemma PurgeIsSafeExactly(fetched: Moment, utc: Moment)
    requires SameInstant(fetched, utc)
    ensures NeverPurgedEarly(fetched, utc) <==> !OutlivesItsCutoff(fetched, utc)
  {
    if OutlivesItsCutoff(fetched, utc) {
      PurgedTooSoon(fetched, utc);
    } else {
      forall now: Moment | CutoffReaches(now, utc)
        ensures TwoYearsAfter(fetched).Some? && Instant(TwoYearsAfter(fetched).value) <= Instant(now)
      {
        PurgedOnTime(fetched, utc, now);
      }
    }
  }

  lemma PurgedOnTime(fetched: Moment, utc: Moment, now: Moment)
    requires SameInstant(fetched, utc) && !OutlivesItsCutoff(fetched, utc) && CutoffReaches(now, utc)
    ensures TwoYearsAfter(fetched).Some? && Instant(TwoYearsAfter(fetched).value) <= Instant(now)
  {
    ExpiryInstant(fetched);
    ExpiryInstant(utc);
    PurgedHasExpired(utc, now);
    if TwoYearSpan(fetched.date) > TwoYearSpan(utc.date) {
      LongerSpan(fetched, utc);
      MarchPurge(utc, now);
    }
  }

  lemma LongerSpan(fetched: Moment, utc: Moment)
    requires SameInstant(fetched, utc)
    requires TwoYearSpan(fetched.date) > TwoYearSpan(utc.date)
    ensures EndOfFebruary(utc.date) && TwoYearSpan(utc.date) == 730 && TwoYearSpan(fetched.date) == 731
  {
    NeighbouringDates(fetched, utc);
    LeapYearsAreApart(utc.date.year);
    if fetched.date == NextDay(utc.date) {
      SpanSteps(utc.date);
    } else {
      SpanSteps(fetched.date);
    }
  }

  predicate EndOfFebruary(d: Date) {
    d.month == 2
    && ((d.day == 28 && !IsLeap(d.year) && IsLeap(d.year + 2))
        || (d.day == 29 && IsLeap(d.year) && !IsLeap(d.year + 2)))
  }

  /** From the last instant of such a February on, the cutoff only reaches the capture in March. */
  lemma MarchPurge(utc: Moment, now: Moment)
    requires ValidMoment(utc) && utc.offset == 0 && utc.date.year <= 9997 && EndOfFebruary(utc.date)
    requires if utc.date.day == 29 then utc.clock == 0 else utc.clock == DAY - 1
    requires CutoffReaches(now, utc)
    ensures Instant(utc) + 731 * DAY <= Instant(now)
  {
    var march := MarchFirst(utc);
    assert !DateBefore(now.date, march.date) by {
      InstantOrder(utc, TwoYearCutoff(now).value);
    }
    InstantOrder(now, march);
  }

  /** 1 March two years later, which is 731 days after the end of such a February. */
  lemma MarchFirst(utc: Moment) returns (march: Moment)
    requires ValidMoment(utc) && utc.offset == 0 && utc.date.year <= 9997 && EndOfFebruary(utc.date)
    ensures march == Moment(Date(utc.date.year + 2, 3, 1), 0, 0) && ValidMoment(march)
    ensures Instant(march) == Instant(utc) - utc.clock + (if utc.date.day == 29 then 731 else 732) * DAY
  {
    hide DaysBeforeYear, DaysBeforeMonth, IsLeap, EndOfFebruary, DayNumber;
    var days := if utc.date.day == 29 then 731 else 732;
    march := Moment(Date(utc.date.year + 2, 3, 1), 0, 0);
    DaysToMarch(utc.date);
    DaysToMicros(DayNumber(utc.date), days);
  }

  lemma DaysToMarch(d: Date)
    requires ValidDate(d) && d.year <= 9997 && EndOfFebruary(d)
    ensures DayNumber(Date(d.year + 2, 3, 1)) == DayNumber(d) + (if d.day == 29 then 731 else 732)
  {
    hide DaysBeforeYear, DaysBeforeMonth, DayNumber;
    LeapYearsAreApart(d.year);
    SpanDays(d);
    var end := Anniversary(d);
    NextDayNumber(end);
    if d.day == 28 {
      NextDayNumber(NextDay(end));
    }
  }

  lemma PurgedTooSoon(fetched: Moment, utc: Moment)
    requires SameInstant(fetched, utc) && OutlivesItsCutoff(fetched, utc)
    ensures !NeverPurgedEarly(fetched, utc)
  {
    LongerSpan(fetched, utc);
    ExpiryInstant(fetched);
    var now;
    if utc.date.day == 29 {
      now := MarchFirst(utc);
      InstantOrder(utc, TwoYearCutoff(now).value);
    } else {
      now := Moment(Date(utc.date.year + 2, 2, 28), utc.clock + 1, 0);
      ExpiryInstant(utc);
      assert TwoYearsAfter(utc).value == now.(clock := utc.clock);
      InstantOrder(utc, TwoYearCutoff(now).value);
    }
    assert CutoffReaches(now, utc);
    assert Instant(now) < Instant(TwoYearsAfter(fetched).value);
  }

  /** 00:30 on 1 March at UTC+1, and the same instant in UTC. */
  const EASTERN := Moment(Date(2022, 3, 1), 1800 * SECOND, 3600 * SECOND)
  const EASTERN_IN_UTC := Moment(Date(2022, 2, 28), 84600 * SECOND, 0)

  /** A capture with this stamp is purged a day before its result expires. */
  lemma {:induction false} EasternCapturePurgedEarly()
    ensures SameInstant(EASTERN, EASTERN_IN_UTC) && !NeverPurgedEarly(EASTERN, EASTERN_IN_UTC)
  {
    var fetched, utc := EASTERN, EASTERN_IN_UTC;
    assert NextDay(utc.date) == fetched.date;
    NextDayNumber(utc.date);
    assert Instant(fetched) == Instant(utc);
    assert TwoYearSpan(fetched.date) == 731 && TwoYearSpan(utc.date) == 730;
    PurgeIsSafeExactly(fetched, utc);
  }

  // ----- proxy billing cycles

  /** The anchor date of the billing cycle that contains a date. */
  function BillingCycle(anchor: int, today: Date): Date {
    if today.day >= anchor then Date(today.year, today.month, anchor)
    else if today.month > 1 then Date(today.year, today.month - 1, anchor)
    else Date(today.year - 1, 12, anchor)
  }

  function NextCycle(cycle: Date): Date {
    if cycle.month < 12 then Date(cycle.year, cycle.month + 1, cycle.day)
    else Date(cycle.year + 1, 1, cycle.day)
  }

  /** Cycles partition the calendar: a date lies in the cycle that starts at an anchor day iff it
      is on or after that anchor and before the next one. */
  lemma BillingCyclePartitions(anchor: int, today: Date, cycle: Date)
    requires 1 <= anchor <= 28 && ValidDate(today)
    requires cycle.day == anchor && 1 <= cycle.month <= 12
    ensures BillingCycle(anchor, today) == cycle
            <==> !DateBefore(today, cycle) && DateBefore(today, NextCycle(cycle))
  {
  }
}
