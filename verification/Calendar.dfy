/**
 * The proleptic Gregorian calendar of crates/xeibe-arrow/src/value.rs:109-133:
 * counting days, against walking from one day to the next.
 */
module Calendar {

  datatype Civil = Civil(year: int, month: int, day: int)

  predicate Leap(year: int) {
    (year % 4 == 0 && year % 100 != 0) || year % 400 == 0
  }

  function DaysInMonth(year: int, month: int): int {
    if month in {1, 3, 5, 7, 8, 10, 12} then 31
    else if month in {4, 6, 9, 11} then 30
    else if month == 2 then (if Leap(year) then 29 else 28)
    else 0
  }

  /** The dates that `parse_date` accepts. */
  predicate Valid(date: Civil) {
    1 <= date.month <= 12 && 1 <= date.day <= DaysInMonth(date.year, date.month)
  }

  /** `days_from_civil`: days since 1970-01-01. */
  function DaysFromCivil(date: Civil): int {
    var year := if date.month <= 2 then date.year - 1 else date.year;
    var era := year / 400;
    var yearOfEra := year - era * 400;
    var dayOfYear := (153 * (if date.month > 2 then date.month - 3 else date.month + 9) + 2) / 5 + date.day - 1;
    var dayOfEra := yearOfEra * 365 + yearOfEra / 4 - yearOfEra / 100 + dayOfYear;
    era * 146_097 + dayOfEra - 719_468
  }

  /** The day after. */
  function NextDay(date: Civil): Civil {
    if date.day < DaysInMonth(date.year, date.month) then date.(day := date.day + 1)
    else if date.month < 12 then Civil(date.year, date.month + 1, 1)
    else Civil(date.year + 1, 1, 1)
  }

  /** The date comes first. */
  predicate Before(a: Civil, b: Civil) {
    a.year < b.year || (a.year == b.year && (a.month < b.month || (a.month == b.month && a.day < b.day)))
  }

  // ---- years that begin in March -------------------------------------------------------------

  /** Days from the epoch of the algorithm to the 1st of March of a year. */
  function MarchFirst(year: int): int {
    365 * year + year / 4 - year / 100 + year / 400
  }

  function MarchYear(date: Civil): int {
    if date.month <= 2 then date.year - 1 else date.year
  }

  function DayOfMarchYear(date: Civil): int {
    (153 * (if date.month > 2 then date.month - 3 else date.month + 9) + 2) / 5 + date.day - 1
  }

  lemma EraQuarters(era: int, yearOfEra: int)
    requires 0 <= yearOfEra < 400
    ensures (era * 400 + yearOfEra) / 4 == era * 100 + yearOfEra / 4
    ensures (era * 400 + yearOfEra) / 100 == era * 4 + yearOfEra / 100
    ensures (era * 400 + yearOfEra) / 400 == era
  {
  }

  /** The eras of 400 years come to whole days per year, and one more each leap year. */
  lemma DaysAre(date: Civil)
    ensures DaysFromCivil(date) == MarchFirst(MarchYear(date)) + DayOfMarchYear(date) - 719_468
  {
    var year := MarchYear(date);
    var era := year / 400;
    EraQuarters(era, year - era * 400);
  }

  lemma YearLength(year: int)
    ensures MarchFirst(year + 1) == MarchFirst(year) + (if Leap(year + 1) then 366 else 365)
  {
    StepOf(year, 4);
    StepOf(year, 100);
    StepOf(year, 400);
  }

  lemma StepOf(year: int, n: int)
    requires n in {4, 100, 400}
    ensures (year + 1) / n == year / n + if (year + 1) % n == 0 then 1 else 0
  {
  }

  // ---- one day on ---------------------------------------------------------------------------------

  lemma EpochIsZero()
    ensures DaysFromCivil(Civil(1970, 1, 1)) == 0
  {
  }

  lemma NextDayIsValid(date: Civil)
    requires Valid(date)
    ensures Valid(NextDay(date)) && Before(date, NextDay(date))
  {
  }

  /** Within a year from March to February, the months follow one another without a gap. */
  lemma NextDayOfMarchYear(date: Civil)
    requires Valid(date)
    ensures date.month == 2 && date.day == DaysInMonth(date.year, 2) ==>
              && MarchYear(NextDay(date)) == MarchYear(date) + 1 == date.year
              && DayOfMarchYear(NextDay(date)) == 0
              && DayOfMarchYear(date) == if Leap(date.year) then 365 else 364
    ensures !(date.month == 2 && date.day == DaysInMonth(date.year, 2)) ==>
              && MarchYear(NextDay(date)) == MarchYear(date)
              && DayOfMarchYear(NextDay(date)) == DayOfMarchYear(date) + 1
  {
  }

  /** Each step to the next day counts one day. */
  lemma NextDayCountsOne(date: Civil)
    requires Valid(date)
    ensures DaysFromCivil(NextDay(date)) == DaysFromCivil(date) + 1
  {
    DaysAre(date);
    DaysAre(NextDay(date));
    NextDayOfMarchYear(date);
    if date.month == 2 && date.day == DaysInMonth(date.year, 2) {
      YearLength(date.year - 1);
    }
  }

  // ---- any count that steps with the days ----------------------------------------------------------

  /** One more for each next day. */
  ghost predicate Steps(count: Civil -> int) {
    forall date :: Valid(date) ==> count(NextDay(date)) == count(date) + 1
  }

  /** The date `n` days on. */
  function DaysOn(date: Civil, n: nat): Civil {
    if n == 0 then date else NextDay(DaysOn(date, n - 1))
  }

  lemma {:induction false} DaysOnCounts(count: Civil -> int, date: Civil, n: nat)
    requires Steps(count) && Valid(date)
    ensures Valid(DaysOn(date, n)) && count(DaysOn(date, n)) == count(date) + n
  {
    if n > 0 {
      DaysOnCounts(count, date, n - 1);
      NextDayIsValid(DaysOn(date, n - 1));
    }
  }

  lemma {:induction false} DayOfMonth(count: Civil -> int, date: Civil)
    requires Steps(count) && Valid(date)
    ensures count(date) == count(Civil(date.year, date.month, 1)) + date.day - 1
    decreases date.day
  {
    if date.day > 1 {
      var before := date.(day := date.day - 1);
      DayOfMonth(count, before);
      assert NextDay(before) == date;
    }
  }

  lemma MonthOn(count: Civil -> int, year: int, month: int)
    requires Steps(count) && 1 <= month <= 12
    ensures count(Civil(if month < 12 then year else year + 1, if month < 12 then month + 1 else 1, 1))
            == count(Civil(year, month, 1)) + DaysInMonth(year, month)
  {
    var last := Civil(year, month, DaysInMonth(year, month));
    DayOfMonth(count, last);
    assert NextDay(last) == Civil(if month < 12 then year else year + 1, if month < 12 then month + 1 else 1, 1);
  }

  /** Later months start later, at least as much as the earlier one is long. */
  lemma {:induction false} MonthsGrow(count: Civil -> int, year: int, month: int, later: int, laterMonth: int)
    requires Steps(count) && 1 <= month <= 12 && 1 <= laterMonth <= 12
    requires year < later || (year == later && month < laterMonth)
    ensures count(Civil(year, month, 1)) + DaysInMonth(year, month) <= count(Civil(later, laterMonth, 1))
    decreases (later - year) * 12 + laterMonth - month
  {
    MonthOn(count, year, month);
    var nextYear, next := if month < 12 then year else year + 1, if month < 12 then month + 1 else 1;
    if nextYear != later || next != laterMonth {
      MonthsGrow(count, nextYear, next, later, laterMonth);
    }
  }

  lemma EarlierCountsLess(count: Civil -> int, a: Civil, b: Civil)
    requires Steps(count) && Valid(a) && Valid(b) && Before(a, b)
    ensures count(a) < count(b)
  {
    DayOfMonth(count, a);
    DayOfMonth(count, b);
    if (a.year, a.month) != (b.year, b.month) {
      MonthsGrow(count, a.year, a.month, b.year, b.month);
    }
  }

  lemma {:induction false} YearsGoDown(count: Civil -> int, year: int, k: nat)
    requires Steps(count)
    ensures count(Civil(year - k, 1, 1)) <= count(Civil(year, 1, 1)) - k
  {
    if k > 0 {
      YearsGoDown(count, year, k - 1);
      MonthsGrow(count, year - k, 1, year - (k - 1), 1);
    }
  }

  lemma DateOfCount(count: Civil -> int, n: int) returns (date: Civil)
    requires Steps(count)
    ensures Valid(date) && count(date) == n
  {
    // The first day of a year that is early enough, and the days on from it.
    var first := count(Civil(1970, 1, 1));
    var k := if n < first then first - n else 0;
    YearsGoDown(count, 1970, k);
    var start := Civil(1970 - k, 1, 1);
    DaysOnCounts(count, start, n - count(start));
    date := DaysOn(start, n - count(start));
  }

  // ---- the count of the code ----------------------------------------------------------------------

  lemma DaysStep()
    ensures Steps(DaysFromCivil)
  {
    forall date | Valid(date) ensures DaysFromCivil(NextDay(date)) == DaysFromCivil(date) + 1 {
      NextDayCountsOne(date);
    }
  }

  /** An earlier date has a smaller count, and only an earlier date has. */
  lemma CountsInOrder(a: Civil, b: Civil)
    requires Valid(a) && Valid(b)
    ensures Before(a, b) <==> DaysFromCivil(a) < DaysFromCivil(b)
    ensures DaysFromCivil(a) == DaysFromCivil(b) <==> a == b
  {
    DaysStep();
    if Before(a, b) {
      EarlierCountsLess(DaysFromCivil, a, b);
    } else if a != b {
      EarlierCountsLess(DaysFromCivil, b, a);
    }
  }

  /** Every day has a date: the counts leave none out. */
  lemma EveryDayHasADate(n: int) returns (date: Civil)
    ensures Valid(date) && DaysFromCivil(date) == n
    ensures forall other :: Valid(other) && DaysFromCivil(other) == n ==> other == date
  {
    DaysStep();
    date := DateOfCount(DaysFromCivil, n);
    forall other | Valid(other) && DaysFromCivil(other) == n ensures other == date {
      CountsInOrder(other, date);
    }
  }
}
