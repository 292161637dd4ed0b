/**
 * Which texts are dates and times, and that no unchecked step of their
 * arithmetic leaves 64 bits (crates/xeibe-arrow/src/value.rs:92-184, 222-242).
 */
module DateTexts {
  import opened Basics
  import opened Calendar
  import opened DateTimes

  function Digit(n: nat): (c: char)
    requires n < 10
    ensures IsDigit(c) && DigitValue(c) == n
  {
    ('0' as int + n) as char
  }

  function Two(n: nat): (text: string)
    requires n < 100
    ensures |text| == 2 && AllDigits(text)
  {
    [Digit(n / 10), Digit(n % 10)]
  }

  lemma TwoReads(n: nat, rest: string)
    requires n < 100
    ensures TwoDigits(Two(n) + rest) == Some(n) && (Two(n) + rest)[2..] == rest
  {
  }

  lemma TwoIsRead(text: string)
    requires TwoDigits(text).Some?
    ensures TwoDigits(text).value < 100 && text == Two(TwoDigits(text).value) + text[2..]
  {
  }

  lemma CharReads(c: char, rest: string)
    ensures StripPrefix([c] + rest, c) == Some(rest)
  {
  }

  lemma CharIsRead(text: string, c: char)
    requires StripPrefix(text, c).Some?
    ensures text == [c] + StripPrefix(text, c).value
  {
  }

  lemma TwoAfterReads(c: char, n: nat, rest: string)
    requires n < 100
    ensures TwoAfter([c] + (Two(n) + rest), c) == Some((n, rest))
  {
    CharReads(c, Two(n) + rest);
    TwoReads(n, rest);
  }

  lemma TwoAfterIsRead(text: string, c: char)
    requires TwoAfter(text, c).Some?
    ensures TwoAfter(text, c).value.0 < 100
    ensures text == [c] + (Two(TwoAfter(text, c).value.0) + TwoAfter(text, c).value.1)
  {
    CharIsRead(text, c);
    TwoIsRead(StripPrefix(text, c).value);
  }

  lemma {:induction false} RunReads(digits: string, rest: string)
    requires AllDigits(digits) && (rest == "" || !IsDigit(rest[0]))
    ensures DigitRun(digits + rest) == |digits|
    ensures (digits + rest)[..|digits|] == digits && (digits + rest)[|digits|..] == rest
  {
    if digits == "" {
      assert digits + rest == rest;
    } else {
      assert (digits + rest)[1..] == digits[1..] + rest;
      RunReads(digits[1..], rest);
    }
  }

  // ---- dates ----------------------------------------------------------------------------------

  function MonthText(month: nat, day: nat, rest: string): string
    requires month < 100 && day < 100
  {
    "-" + (Two(month) + ("-" + (Two(day) + rest)))
  }

  /** `[-]YYYY-MM-DD`, with four to nine year digits. */
  function DateText(negative: bool, digits: string, month: nat, day: nat, rest: string): string
    requires month < 100 && day < 100
  {
    (if negative then "-" else "") + (digits + MonthText(month, day, rest))
  }

  function YearOf(negative: bool, digits: string): int
    requires AllDigits(digits)
  {
    if negative then 0 - Number(digits) else Number(digits)
  }

  lemma UnsignedReads(negative: bool, digits: string, month: nat, day: nat, rest: string)
    requires month < 100 && day < 100 && AllDigits(digits) && digits != ""
    ensures var text, unsigned := DateText(negative, digits, month, day, rest), digits + MonthText(month, day, rest);
            StripPrefix(text, '-') == if negative then Some(unsigned) else None
    ensures !negative ==> DateText(negative, digits, month, day, rest) == digits + MonthText(month, day, rest)
  {
    var unsigned := digits + MonthText(month, day, rest);
    assert "" + unsigned == unsigned && unsigned[0] == digits[0];
    CharReads('-', unsigned);
  }

  lemma {:induction false} DayReads(year: int, month: nat, day: nat, rest: string)
    requires month < 100 && day < 100 && Valid(Civil(year, month, day))
    ensures ParseDayOfYear(year, MonthText(month, day, rest)) == Some((Civil(year, month, day), rest))
  {
    TwoAfterReads('-', month, "-" + (Two(day) + rest));
    TwoAfterReads('-', day, rest);
  }

  /** Every text of this form with a day that the month has is that date. */
  lemma {:induction false} DateReads(negative: bool, digits: string, month: nat, day: nat, rest: string)
    requires month < 100 && day < 100 && AllDigits(digits) && 4 <= |digits| <= 9
    requires Valid(Civil(YearOf(negative, digits), month, day))
    ensures ParseDate(DateText(negative, digits, month, day, rest))
            == Some((Civil(YearOf(negative, digits), month, day), rest))
  {
    var text, after := DateText(negative, digits, month, day, rest), MonthText(month, day, rest);
    UnsignedReads(negative, digits, month, day, rest);
    RunReads(digits, after);
    DayReads(YearOf(negative, digits), month, day, rest);
    assert ParseDate(text) == ParseDayOfYear(YearOf(negative, digits), after);
  }

  /** Only such texts are dates. */
  lemma DateIsRead(text: string) returns (negative: bool, digits: string)
    requires ParseDate(text).Some?
    ensures var (date, rest) := ParseDate(text).value;
            && Valid(date) && AllDigits(digits) && 4 <= |digits| <= 9 && date.year == YearOf(negative, digits)
            && date.month < 100 && date.day < 100
            && text == DateText(negative, digits, date.month, date.day, rest)
  {
    var sign := StripPrefix(text, '-');
    negative := sign.Some?;
    var unsigned := if negative then sign.value else text;
    var n := DigitRun(unsigned);
    digits := unsigned[..n];
    var dashed := unsigned[n..];
    assert unsigned == digits + dashed;
    TwoAfterIsRead(dashed, '-');
    TwoAfterIsRead(TwoAfter(dashed, '-').value.1, '-');
    if negative {
      CharIsRead(text, '-');
    } else {
      assert "" + unsigned == unsigned;
    }
  }

  // ---- times ----------------------------------------------------------------------------------

  function FractionText(fraction: string, rest: string): string {
    if fraction == "" then rest else "." + (fraction + rest)
  }

  /** `hh:mm:ss[.f+]`. */
  function TimeText(hour: nat, minute: nat, second: nat, fraction: string, rest: string): string
    requires hour < 100 && minute < 100 && second < 100
  {
    Two(hour) + (":" + (Two(minute) + (":" + (Two(second) + FractionText(fraction, rest)))))
  }

  /** What may follow a time: it goes on neither the fraction nor its digits. */
  predicate EndsTime(rest: string) {
    rest == "" || (!IsDigit(rest[0]) && rest[0] != '.')
  }

  lemma TimeReads(hour: nat, minute: nat, second: nat, fraction: string, rest: string)
    requires hour <= 23 && minute <= 59 && second <= 60 && AllDigits(fraction) && EndsTime(rest)
    ensures ParseTime(TimeText(hour, minute, second, fraction, rest))
            == Some(Time(hour * 3600 + minute * 60 + Min(second, 59), fraction, rest))
  {
    var tail := FractionText(fraction, rest);
    var afterMinute := ":" + (Two(second) + tail);
    var afterHour := ":" + (Two(minute) + afterMinute);
    TwoReads(hour, afterHour);
    TwoAfterReads(':', minute, afterMinute);
    TwoAfterReads(':', second, tail);
    FractionReads(hour * 3600 + minute * 60 + Min(second, 59), fraction, rest);
    ClockReads(Two(hour) + afterHour, hour, minute, second, afterHour, afterMinute, tail);
  }

  /** The steps of `parse_time`. */
  lemma ClockReads(text: string, hour: nat, minute: nat, second: nat, afterHour: string, afterMinute: string,
                   tail: string)
    requires hour <= 23 && minute <= 59 && second <= 60
    requires TwoDigits(text) == Some(hour) && text[2..] == afterHour
    requires TwoAfter(afterHour, ':') == Some((minute, afterMinute))
    requires TwoAfter(afterMinute, ':') == Some((second, tail))
    ensures ParseTime(text) == ParseFraction(hour * 3600 + minute * 60 + Min(second, 59), tail)
  {
  }

  lemma FractionReads(seconds: nat, fraction: string, rest: string)
    requires AllDigits(fraction) && EndsTime(rest)
    ensures ParseFraction(seconds, FractionText(fraction, rest)) == Some(Time(seconds, fraction, rest))
  {
    if fraction != "" {
      CharReads('.', fraction + rest);
      RunReads(fraction, rest);
    }
  }

  lemma FractionIsRead(seconds: nat, text: string)
    requires ParseFraction(seconds, text).Some?
    ensures var time := ParseFraction(seconds, text).value;
            && text == FractionText(time.fraction, time.rest)
            && (time.rest != "" ==> !IsDigit(time.rest[0]) || time.fraction == "")
            && (time.fraction == "" ==> StripPrefix(time.rest, '.').None?)
  {
    if StripPrefix(text, '.').Some? {
      CharIsRead(text, '.');
      var fraction := StripPrefix(text, '.').value;
      var n := DigitRun(fraction);
      assert fraction == fraction[..n] + fraction[n..];
    }
  }

  /** Only such texts are times of day. */
  lemma TimeIsRead(text: string) returns (hour: nat, minute: nat, second: nat)
    requires ParseTime(text).Some?
    ensures hour <= 23 && minute <= 59 && second <= 60
    ensures var time := ParseTime(text).value;
            && text == TimeText(hour, minute, second, time.fraction, time.rest)
            && time.seconds == hour * 3600 + minute * 60 + Min(second, 59)
  {
    TwoIsRead(text);
    hour := TwoDigits(text).value;
    var afterHour := text[2..];
    TwoAfterIsRead(afterHour, ':');
    minute := TwoAfter(afterHour, ':').value.0;
    var afterMinute := TwoAfter(afterHour, ':').value.1;
    TwoAfterIsRead(afterMinute, ':');
    second := TwoAfter(afterMinute, ':').value.0;
    var tail := TwoAfter(afterMinute, ':').value.1;
    ClockReads(text, hour, minute, second, afterHour, afterMinute, tail);
    FractionIsRead(hour * 3600 + minute * 60 + Min(second, 59), tail);
  }

  /** `Z`, or a sign, hours and minutes. */
  function ZoneText(zone: Option<int>): string
    requires zone.Some? ==> -899 <= zone.value <= 899
  {
    match zone
    case None => ""
    case Some(offset) =>
      if offset == 0 then "Z"
      else if offset > 0 then "+" + (Two(offset / 60) + (":" + Two(offset % 60)))
      else "-" + (Two(-offset / 60) + (":" + Two(-offset % 60)))
  }

  lemma OffsetReads(sign: char, hours: nat, minutes: nat)
    requires sign == '+' || sign == '-'
    requires hours <= 14 && minutes <= 59
    ensures ParseZone([sign] + (Two(hours) + (":" + Two(minutes))))
            == Some(Some(if sign == '+' then hours * 60 + minutes else 0 - (hours * 60 + minutes)))
  {
    var rest := Two(hours) + (":" + Two(minutes));
    var text := [sign] + rest;
    assert text[1..] == rest;
    assert text != "Z" by {
      assert |text| == 6;
    }
    TwoReads(hours, ":" + Two(minutes));
    assert rest[3..] == Two(minutes) + "";
    TwoReads(minutes, "");
  }

  lemma ZoneReads(zone: Option<int>)
    requires zone.Some? ==> -899 <= zone.value <= 899
    ensures ParseZone(ZoneText(zone)) == Some(zone)
    ensures EndsTime(ZoneText(zone))
  {
    if zone.Some? && zone.value > 0 {
      OffsetReads('+', zone.value / 60, zone.value % 60);
    } else if zone.Some? && zone.value < 0 {
      OffsetReads('-', -zone.value / 60, -zone.value % 60);
    }
  }

  /** Only nothing, `Z`, or a sign, at most 14 hours and at most 59 minutes is a time zone. */
  lemma ZoneIsRead(text: string) returns (hours: nat, minutes: nat)
    requires ParseZone(text).Some?
    ensures hours <= 14 && minutes <= 59
    ensures match ParseZone(text).value
            case None => text == ""
            case Some(offset) =>
              || (text == "Z" && offset == 0)
              || (text == ['+'] + (Two(hours) + (":" + Two(minutes))) && offset == hours * 60 + minutes)
              || (text == ['-'] + (Two(hours) + (":" + Two(minutes))) && offset == 0 - (hours * 60 + minutes))
  {
    hours, minutes := 0, 0;
    if text != "" && text != "Z" {
      var rest := text[1..];
      TwoIsRead(rest);
      TwoIsRead(rest[3..]);
      hours, minutes := TwoDigits(rest).value, TwoDigits(rest[3..]).value;
      assert rest[3..] == Two(minutes);
      assert rest[2..] == ":" + rest[3..];
      assert text == [text[0]] + rest;
    }
  }

  /** A text is a moment exactly if it is a date, `T`, a time of day and a time zone. */
  lemma MomentReads(text: string, m: Moment)
    ensures ParseMoment(text) == Some(m)
            <==> exists date, clock, zoneText ::
                   && ParseDate(text) == Some((date, ['T'] + clock)) && DaysFromCivil(date) == m.days
                   && ParseTime(clock) == Some(Time(m.seconds, m.fraction, zoneText))
                   && ParseZone(zoneText) == Some(m.zone)
  {
    if ParseMoment(text) == Some(m) {
      var (date, after) := ParseDate(text).value;
      CharIsRead(after, 'T');
      var clock := StripPrefix(after, 'T').value;
      var zoneText := ParseTime(clock).value.rest;
      assert ParseDate(text) == Some((date, ['T'] + clock)) && ParseZone(zoneText) == Some(m.zone);
    }
    if date, clock, zoneText :|
         && ParseDate(text) == Some((date, ['T'] + clock)) && DaysFromCivil(date) == m.days
         && ParseTime(clock) == Some(Time(m.seconds, m.fraction, zoneText))
         && ParseZone(zoneText) == Some(m.zone)
    {
      CharReads('T', clock);
    }
  }

  // ---- a text that is refused -----------------------------------------------------------------------

  const EDGE: string := "1677-09-21" + ("T" + ("00:12:43" + ".145224192Z"))

  lemma EdgeYear()
    ensures AllDigits("1677") && Number("1677") == 1677
  {
    NumberOf("", 0, '1');
    assert "" + ['1'] == "1";
    NumberOf("1", 1, '6');
    assert "1" + ['6'] == "16";
    NumberOf("16", 16, '7');
    assert "16" + ['7'] == "167";
    NumberOf("167", 167, '7');
    assert "167" + ['7'] == "1677";
  }

  lemma EdgeDate(rest: string)
    ensures DateText(false, "1677", 9, 21, rest) == "1677-09-21" + rest
  {
    assert Two(9) == "09" && Two(21) == "21";
    assert MonthText(9, 21, rest) == "-09-21" + rest;
    assert "1677" + ("-09-21" + rest) == "1677-09-21" + rest;
  }

  lemma EdgeClock(fraction: string, rest: string)
    ensures TimeText(0, 12, 43, fraction, rest) == "00:12:43" + FractionText(fraction, rest)
  {
    assert Two(0) == "00" && Two(12) == "12" && Two(43) == "43";
    Joined("00", "12", "43", FractionText(fraction, rest));
  }

  lemma Joined(hour: string, minute: string, second: string, rest: string)
    requires |hour| == |minute| == |second| == 2
    ensures hour + (":" + (minute + (":" + (second + rest)))) == hour + ":" + minute + ":" + second + rest
  {
  }

  lemma EdgeText()
    ensures AllDigits("145224192")
    ensures EDGE == DateText(false, "1677", 9, 21, "T" + TimeText(0, 12, 43, "145224192", "Z"))
  {
    EdgeDigits();
    EdgeFraction();
    EdgeClock("145224192", "Z");
    EdgeDate("T" + TimeText(0, 12, 43, "145224192", "Z"));
  }

  lemma EdgeFraction()
    ensures FractionText("145224192", "Z") == ".145224192Z"
  {
    assert "145224192" + "Z" == "145224192Z";
    assert "." + "145224192Z" == ".145224192Z";
  }

  lemma EdgeMoment(m: Moment)
    requires m.days == DaysFromCivil(Civil(1677, 9, 21)) && m.seconds == 763 && m.fraction == "145224192"
    requires m.zone == Some(0)
    ensures ParseMoment(EDGE) == Some(m)
  {
    EdgeText();
    EdgeYear();
    var clock := TimeText(0, 12, 43, "145224192", "Z");
    DateReads(false, "1677", 9, 21, "T" + clock);
    TimeReads(0, 12, 43, "145224192", "Z");
    ZoneReads(Some(0));
    assert ParseDate(EDGE) == Some((Civil(1677, 9, 21), ['T'] + clock));
    MomentReads(EDGE, m);
  }

  lemma RefusedWithItsMoment(text: string, m: Moment, unit: TimeUnit, withZone: bool)
    requires AllDigits(m.fraction) && ParseMoment(text) == Some(m) && CountOf(m, unit).None?
    ensures ParseTimestamp(text, unit, withZone).None?
  {
  }

  /** The text is that of the first nanosecond that 64 bits count. */
  lemma EdgeIsFirst() returns (m: Moment)
    ensures ParseMoment(EDGE) == Some(m) && AllDigits(m.fraction)
    ensures Counts(MIN64, Instant(m), Nanosecond) && CountOf(m, Nanosecond).None?
  {
    m := FirstNanosecondIsRefused();
    EdgeMoment(m);
  }

  /** Its count fits 64 bits, and it is refused. */
  lemma FirstNanosecondTextIsRefused() returns (m: Moment)
    ensures ParseMoment(EDGE) == Some(m) && AllDigits(m.fraction)
    ensures In64(MIN64) && Counts(MIN64, Instant(m), Nanosecond)
    ensures ParseTimestamp(EDGE, Nanosecond, true).None?
  {
    m := EdgeIsFirst();
    RefusedWithItsMoment(EDGE, m, Nanosecond, true);
  }

  // ---- a text with an offset --------------------------------------------------------------------------

  /** The text is read as this moment. */
  ghost predicate Names(text: string, m: Moment) {
    ParseMoment(text) == Some(m)
  }

  lemma {:induction false} MomentFrom(text: string, date: Civil, clock: string, zoneText: string, m: Moment)
    requires ParseDate(text) == Some((date, ['T'] + clock)) && m.days == DaysFromCivil(date)
    requires ParseTime(clock) == Some(Time(m.seconds, m.fraction, zoneText)) && ParseZone(zoneText) == Some(m.zone)
    ensures Names(text, m)
  {
    CharReads('T', clock);
  }

  lemma {:induction false} DateThen(negative: bool, digits: string, date: Civil, clock: string, zoneText: string,
                                    m: Moment)
    requires AllDigits(digits) && 4 <= |digits| <= 9 && 0 <= date.month < 100 && 0 <= date.day < 100
    requires Valid(date) && date.year == YearOf(negative, digits) && m.days == DaysFromCivil(date)
    requires ParseTime(clock) == Some(Time(m.seconds, m.fraction, zoneText)) && ParseZone(zoneText) == Some(m.zone)
    ensures Names(DateText(negative, digits, date.month, date.day, ['T'] + clock), m)
  {
    DateReads(negative, digits, date.month, date.day, ['T'] + clock);
    MomentFrom(DateText(negative, digits, date.month, date.day, ['T'] + clock), date, clock, zoneText, m);
  }

  lemma {:induction false} ClockThen(hour: nat, minute: nat, second: nat, m: Moment, rest: string)
    requires hour <= 23 && minute <= 59 && second <= 60 && AllDigits(m.fraction) && EndsTime(rest)
    requires m.seconds == hour * 3600 + minute * 60 + if second == 60 then 59 else second
    ensures ParseTime(TimeText(hour, minute, second, m.fraction, rest)) == Some(Time(m.seconds, m.fraction, rest))
  {
    TimeReads(hour, minute, second, m.fraction, rest);
    SecondIs(hour, minute, second, m.seconds);
  }

  lemma {:induction false} SecondIs(hour: nat, minute: nat, second: nat, seconds: nat)
    requires second <= 60 && seconds == hour * 3600 + minute * 60 + if second == 60 then 59 else second
    ensures seconds == hour * 3600 + minute * 60 + Min(second, 59)
  {
  }

  /** Every text of a date, a time of day and a time zone is the moment of these. */
  lemma {:induction false} TextReads(negative: bool, digits: string, month: nat, day: nat, hour: nat, minute: nat,
                                     second: nat, m: Moment)
    requires AllDigits(digits) && 4 <= |digits| <= 9 && month < 100 && day < 100
    requires Valid(Civil(YearOf(negative, digits), month, day))
    requires hour <= 23 && minute <= 59 && second <= 60 && AllDigits(m.fraction)
    requires m.zone.Some? ==> -899 <= m.zone.value <= 899
    requires m.days == DaysFromCivil(Civil(YearOf(negative, digits), month, day))
    requires m.seconds == hour * 3600 + minute * 60 + if second == 60 then 59 else second
    ensures Names(DateText(negative, digits, month, day,
                           ['T'] + TimeText(hour, minute, second, m.fraction, ZoneText(m.zone))), m)
  {
    ZoneReads(m.zone);
    ClockThen(hour, minute, second, m, ZoneText(m.zone));
    DateThen(negative, digits, Civil(YearOf(negative, digits), month, day),
             TimeText(hour, minute, second, m.fraction, ZoneText(m.zone)), ZoneText(m.zone), m);
  }

  const NOON: string := "2024-01-01" + ("T" + ("12:00:00" + ".25+01:00"))

  lemma {:induction false} NoonNumbers()
    ensures AllDigits("2024") && Number("2024") == 2024 && AllDigits("25") && Number("25") == 25
  {
    NumberOf("", 0, '2');
    assert "" + ['2'] == "2";
    NumberOf("2", 2, '0');
    assert "2" + ['0'] == "20";
    NumberOf("20", 20, '2');
    assert "20" + ['2'] == "202";
    NumberOf("202", 202, '4');
    assert "202" + ['4'] == "2024";
    NumberOf("2", 2, '5');
    assert "2" + ['5'] == "25";
  }

  lemma {:induction false} NoonDate(rest: string)
    ensures DateText(false, "2024", 1, 1, rest) == "2024-01-01" + rest
  {
    assert Two(1) == "01";
    assert MonthText(1, 1, rest) == "-01-01" + rest;
    assert "2024" + ("-01-01" + rest) == "2024-01-01" + rest;
  }

  lemma {:induction false} HourAhead(hours: string, minutes: string)
    requires hours == "01" && minutes == "00"
    ensures "+" + (hours + (":" + minutes)) == "+01:00"
  {
  }

  lemma {:induction false} NoonZone()
    ensures FractionText("25", ZoneText(Some(60))) == ".25+01:00"
  {
    assert Two(1) == "01" && Two(0) == "00";
    HourAhead(Two(1), Two(0));
    assert ZoneText(Some(60)) == "+01:00";
    assert "25" + "+01:00" == "25+01:00";
  }

  lemma {:induction false} NoonClock(fraction: string, rest: string)
    ensures TimeText(12, 0, 0, fraction, rest) == "12:00:00" + FractionText(fraction, rest)
  {
    assert Two(12) == "12" && Two(0) == "00";
    Joined("12", "00", "00", FractionText(fraction, rest));
  }

  lemma {:induction false} NoonText()
    ensures NOON == DateText(false, "2024", 1, 1, ['T'] + TimeText(12, 0, 0, "25", ZoneText(Some(60))))
  {
    NoonZone();
    NoonClock("25", ZoneText(Some(60)));
    NoonDate(['T'] + TimeText(12, 0, 0, "25", ZoneText(Some(60))));
  }

  lemma {:induction false} CountsAs(text: string, m: Moment, unit: TimeUnit)
    requires Names(text, m) && m.zone.Some?
    ensures AllDigits(m.fraction)
    ensures ParseTimestamp(text, unit, true) == CountOf(m, unit) && ParseTimestamp(text, unit, false).None?
  {
  }

  lemma {:induction false} NoonMoment(year: string, fraction: string, m: Moment)
    requires year == "2024" && fraction == "25"
    requires m == Moment(DaysFromCivil(Civil(2024, 1, 1)), 43_200, fraction, Some(60))
    ensures Names(NOON, m)
  {
    NoonNumbers();
    NoonText();
    assert YearOf(false, year) == 2024;
    TextReads(false, year, 1, 1, 12, 0, 0, m);
  }

  /** A noon an hour ahead of UTC is 11:00 in UTC; its quarter of a second is too fine for whole seconds. */
  lemma {:induction false} NoonAnHourAhead()
    ensures ParseTimestamp(NOON, Second, true).None? && ParseTimestamp(NOON, Millisecond, false).None?
    ensures ParseTimestamp(NOON, Millisecond, true) == Some(1_704_106_800_250)
    ensures ParseTimestamp(NOON, Microsecond, true) == Some(1_704_106_800_250_000)
    ensures ParseTimestamp(NOON, Nanosecond, true) == Some(1_704_106_800_250_000_000)
  {
    var m := Moment(DaysFromCivil(Civil(2024, 1, 1)), 43_200, "25", Some(60));
    NoonMoment("2024", "25", m);
    NoonNumbers();
    NoonCounts(m);
    CountsAs(NOON, m, Second);
    CountsAs(NOON, m, Millisecond);
    CountsAs(NOON, m, Microsecond);
    CountsAs(NOON, m, Nanosecond);
  }

  lemma {:induction false} NoonInstant(m: Moment)
    requires AllDigits("25") && Number("25") == 25
    requires m.days == DaysFromCivil(Civil(2024, 1, 1)) && m.seconds == 43_200 && m.fraction == "25"
    requires m.zone == Some(60)
    ensures Instant(m) == 1_704_106_800.25
  {
    assert m.days == 19_723;
    assert Pow10(2) == 100;
  }

  lemma {:induction false} CountsExactly(m: Moment, instant: real, unit: TimeUnit, n: int)
    requires AllDigits(m.fraction) && Instant(m) == instant && n as real == instant * PerSecond(unit) as real
    requires In64(instant.Floor * PerSecond(unit)) && In64(n)
    ensures CountOf(m, unit) == Some(n)
  {
    CountIsExact(m, unit, n);
  }

  lemma {:induction false} NoonCounts(m: Moment)
    requires AllDigits("25") && Number("25") == 25
    requires m.days == DaysFromCivil(Civil(2024, 1, 1)) && m.seconds == 43_200 && m.fraction == "25"
    requires m.zone == Some(60)
    ensures CountOf(m, Second).None?
    ensures CountOf(m, Millisecond) == Some(1_704_106_800_250)
    ensures CountOf(m, Microsecond) == Some(1_704_106_800_250_000)
    ensures CountOf(m, Nanosecond) == Some(1_704_106_800_250_000_000)
  {
    NoonInstant(m);
    CountsExactly(m, 1_704_106_800.25, Millisecond, 1_704_106_800_250);
    CountsExactly(m, 1_704_106_800.25, Microsecond, 1_704_106_800_250_000);
    CountsExactly(m, 1_704_106_800.25, Nanosecond, 1_704_106_800_250_000_000);
    NoWholeSeconds(m);
  }

  lemma {:induction false} NoWholeSeconds(m: Moment)
    requires AllDigits(m.fraction) && |m.fraction| > 0 && m.fraction[0] != '0'
    ensures CountOf(m, Second).None?
  {
    assert m.fraction[0..][0] == m.fraction[0];
  }

  // ---- no overflow ------------------------------------------------------------------------------

  lemma NineDigits(digits: string)
    requires AllDigits(digits) && |digits| <= 9
    ensures Number(digits) <= 999_999_999
  {
    NumberBelow(digits);
    UnitsPerSecond(Nanosecond);
    PowGrows(|digits|, 9);
  }

  lemma {:induction false} PowGrows(a: nat, b: nat)
    requires a <= b
    ensures Pow10(a) <= Pow10(b)
  {
    if a < b {
      PowGrows(a, b - 1);
    }
  }

  /** Every step of `days_from_civil`, each a 64-bit integer in the code. */
  ghost predicate DaysFit(date: Civil) {
    var year := MarchYear(date);
    var era := year / 400;
    var yearOfEra := year - era * 400;
    var month := if date.month > 2 then date.month - 3 else date.month + 9;
    var dayOfYear := (153 * month + 2) / 5 + date.day - 1;
    && In64(year) && In64(era * 400) && In64(yearOfEra) && In64(153 * month + 2) && In64(dayOfYear)
    && In64(yearOfEra * 365 + yearOfEra / 4) && In64(yearOfEra * 365 + yearOfEra / 4 - yearOfEra / 100 + dayOfYear)
    && In64(era * 146_097) && In64(DaysFromCivil(date) + 719_468) && In64(DaysFromCivil(date))
  }

  lemma DaysFitFor(date: Civil)
    requires Valid(date) && -999_999_999 <= date.year <= 999_999_999
    ensures DaysFit(date)
    ensures -400_000_000_000 <= DaysFromCivil(date) <= 400_000_000_000
  {
    var year := MarchYear(date);
    var era := year / 400;
    var yearOfEra := year - era * 400;
    assert 0 <= yearOfEra < 400 && -2_500_003 <= era <= 2_500_003;
    assert 0 <= yearOfEra / 4 < 100 && 0 <= yearOfEra / 100 < 4;
  }

  /** The sum of a timestamp, before it is scaled by checked arithmetic. */
  ghost predicate SumFits(days: int, seconds: int, offset: int) {
    In64(days * 86_400) && In64(days * 86_400 + seconds) && In64(days * 86_400 + seconds - offset * 60)
  }

  lemma YearIsShort(text: string)
    requires ParseDate(text).Some?
    ensures Valid(ParseDate(text).value.0) && -999_999_999 <= ParseDate(text).value.0.year <= 999_999_999
  {
    var negative, digits := DateIsRead(text);
    NineDigits(digits);
  }

  /** Whatever the text, the unchecked steps of `parse_timestamp` stay within 64 bits. */
  lemma NoStepOverflows(text: string, seconds: int, offset: int)
    requires ParseDate(text).Some? && 0 <= seconds < 86_400 && -899 <= offset <= 899
    ensures DaysFit(ParseDate(text).value.0)
    ensures SumFits(DaysFromCivil(ParseDate(text).value.0), seconds, offset)
  {
    YearIsShort(text);
    DaysFitFor(ParseDate(text).value.0);
  }

  lemma {:induction false} FractionBelowSecond(fraction: string, unit: TimeUnit)
    requires AllDigits(fraction) && FractionUnits(fraction, unit).Some?
    ensures FractionUnits(fraction, unit).value < PerSecond(unit)
  {
    var n := Min(|fraction|, Digits(unit));
    NumberBelow(fraction[..n]);
    PowSum(n, Digits(unit) - n);
    UnitsPerSecond(unit);
    BelowProduct(Number(fraction[..n]), Pow10(n), Pow10(Digits(unit) - n));
  }

  /** The time of day in a unit, as `parse_time_of_day` computes it without a check, fits too. */
  lemma {:induction false} TimeOfDayFits(text: string, unit: TimeUnit)
    requires ParseTime(text).Some?
    ensures var time := ParseTime(text).value;
            FractionUnits(time.fraction, unit).Some? ==>
              In64(time.seconds * PerSecond(unit) + FractionUnits(time.fraction, unit).value)
  {
    var time := ParseTime(text).value;
    if FractionUnits(time.fraction, unit).Some? {
      FractionBelowSecond(time.fraction, unit);
      WithinDay(time.seconds, unit);
    }
  }

  lemma {:induction false} WithinDay(seconds: nat, unit: TimeUnit)
    requires seconds < 86_400
    ensures 0 <= seconds * PerSecond(unit) <= 86_399_000_000_000
  {
  }

  lemma BelowProduct(a: nat, p: nat, q: nat)
    requires a < p && q > 0
    ensures a * q < p * q
  {
  }
}
