/**
 * Dates, times and timestamps from text
 * (crates/xeibe-arrow/src/value.rs:91-242): XML Schema Part 2, sections 3.2.7
 * to 3.2.9. A text is its bytes; what the code looks at is ASCII.
 */
module DateTimes {
  import opened Basics
  import opened Calendar

  // ---- digits ---------------------------------------------------------------------------------

  predicate IsDigit(c: char) {
    '0' <= c <= '9'
  }

  predicate AllDigits(text: string) {
    forall i :: 0 <= i < |text| ==> IsDigit(text[i])
  }

  function DigitValue(c: char): nat
    requires IsDigit(c)
  {
    c as int - '0' as int
  }

  /** How many digits the text begins with. */
  function DigitRun(text: string): (n: nat)
    ensures n <= |text| && AllDigits(text[..n]) && (n < |text| ==> !IsDigit(text[n]))
  {
    if text == "" || !IsDigit(text[0]) then 0 else 1 + DigitRun(text[1..])
  }

  function Pow10(n: nat): (p: nat)
    ensures p > 0
  {
    if n == 0 then 1 else 10 * Pow10(n - 1)
  }

  function Number(digits: string): nat
    requires AllDigits(digits)
  {
    if digits == "" then 0 else Number(digits[..|digits| - 1]) * 10 + DigitValue(digits[|digits| - 1])
  }

  lemma {:induction false} NumberBelow(digits: string)
    requires AllDigits(digits)
    ensures Number(digits) < Pow10(|digits|)
  {
    if digits != "" {
      NumberBelow(digits[..|digits| - 1]);
    }
  }

  lemma {:induction false} NumberConcat(a: string, b: string)
    requires AllDigits(a) && AllDigits(b)
    ensures AllDigits(a + b) && Number(a + b) == Number(a) * Pow10(|b|) + Number(b)
    decreases |b|
  {
    if b == "" {
      assert a + b == a;
    } else {
      var before := b[..|b| - 1];
      assert (a + b)[..|a + b| - 1] == a + before;
      NumberConcat(a, before);
      TenTimes(Number(a), Pow10(|before|), Number(before), DigitValue(b[|b| - 1]));
    }
  }

  lemma TenTimes(a: nat, p: nat, n: nat, digit: nat)
    ensures (a * p + n) * 10 + digit == a * (10 * p) + (n * 10 + digit)
  {
  }

  function StripPrefix(text: string, c: char): Option<string> {
    if text != "" && text[0] == c then Some(text[1..]) else None
  }

  function TwoDigits(text: string): Option<nat> {
    if |text| < 2 || !IsDigit(text[0]) || !IsDigit(text[1]) then None
    else Some(DigitValue(text[0]) * 10 + DigitValue(text[1]))
  }

  /** A separator and two digits, and what follows. */
  function TwoAfter(text: string, c: char): Option<(nat, string)> {
    match StripPrefix(text, c)
    case None => None
    case Some(rest) =>
      match TwoDigits(rest)
      case None => None
      case Some(n) => Some((n, rest[2..]))
  }

  // ---- the parts of a text ----------------------------------------------------------------------

  /** `parse_date`: the date, and what follows. */
  function ParseDate(text: string): Option<(Civil, string)> {
    var negative := StripPrefix(text, '-');
    var unsigned := if negative.Some? then negative.value else text;
    var n := DigitRun(unsigned);
    if n < 4 || n > 9 then None
    else
      ParseDayOfYear(if negative.Some? then 0 - Number(unsigned[..n]) else Number(unsigned[..n]), unsigned[n..])
  }

  function ParseDayOfYear(year: int, text: string): Option<(Civil, string)> {
    match TwoAfter(text, '-')
    case None => None
    case Some((month, rest)) =>
      match TwoAfter(rest, '-')
      case None => None
      case Some((day, after)) =>
        if Valid(Civil(year, month, day)) then Some((Civil(year, month, day), after)) else None
  }

  /** A time of day: its seconds, its fraction's digits, and what follows. */
  datatype Time = Time(seconds: nat, fraction: string, rest: string)

  /** `parse_time`; a second 60 is read as 59. */
  function ParseTime(text: string): (time: Option<Time>)
    ensures time.Some? ==> time.value.seconds < 86_400 && AllDigits(time.value.fraction)
  {
    match TwoDigits(text)
    case None => None
    case Some(hour) =>
      match TwoAfter(text[2..], ':')
      case None => None
      case Some((minute, rest)) =>
        match TwoAfter(rest, ':')
        case None => None
        case Some((second, after)) =>
          if hour > 23 || minute > 59 || second > 60 then None
          else ParseFraction(hour * 3600 + minute * 60 + Min(second, 59), after)
  }

  function ParseFraction(seconds: nat, rest: string): (time: Option<Time>)
    ensures time.Some? ==> time.value.seconds == seconds && AllDigits(time.value.fraction)
  {
    match StripPrefix(rest, '.')
    case None => Some(Time(seconds, "", rest))
    case Some(fraction) =>
      var n := DigitRun(fraction);
      if n == 0 then None else Some(Time(seconds, fraction[..n], fraction[n..]))
  }

  /** `parse_tz`: no time zone, or an offset in minutes. */
  function ParseZone(text: string): (zone: Option<Option<int>>)
    ensures zone.Some? && zone.value.Some? ==> -899 <= zone.value.value <= 899
  {
    if text == "" then Some(None)
    else if text == "Z" then Some(Some(0))
    else if text[0] != '+' && text[0] != '-' then None
    else
      var rest := text[1..];
      if |rest| != 5 || rest[2] != ':' then None
      else
        match (TwoDigits(rest), TwoDigits(rest[3..]))
        case (Some(hours), Some(minutes)) =>
          if hours > 14 || minutes > 59 then None
          else
            var offset: int := hours * 60 + minutes;
            Some(Some(if text[0] == '+' then offset else -offset))
        case _ => None
  }

  /** A day, counted from 1970-01-01, and a time of day as a text has them. */
  datatype Moment = Moment(days: int, seconds: nat, fraction: string, zone: Option<int>)

  function ParseMoment(text: string): (moment: Option<Moment>)
    ensures moment.Some? ==> AllDigits(moment.value.fraction)
  {
    match ParseDate(text)
    case None => None
    case Some((date, rest)) =>
      match StripPrefix(rest, 'T')
      case None => None
      case Some(clock) =>
        match ParseTime(clock)
        case None => None
        case Some(time) =>
          match ParseZone(time.rest)
          case None => None
          case Some(zone) => Some(Moment(DaysFromCivil(date), time.seconds, time.fraction, zone))
  }

  // ---- the count ----------------------------------------------------------------------------------

  datatype TimeUnit = Second | Millisecond | Microsecond | Nanosecond

  function Digits(unit: TimeUnit): nat {
    match unit
    case Second => 0
    case Millisecond => 3
    case Microsecond => 6
    case Nanosecond => 9
  }

  function PerSecond(unit: TimeUnit): nat {
    match unit
    case Second => 1
    case Millisecond => 1_000
    case Microsecond => 1_000_000
    case Nanosecond => 1_000_000_000
  }

  lemma UnitsPerSecond(unit: TimeUnit)
    ensures PerSecond(unit) == Pow10(Digits(unit))
  {
    assert Pow10(3) == 1_000;
    assert Pow10(6) == 1_000 * Pow10(3) by {
      assert Pow10(6) == 10 * Pow10(5) && Pow10(5) == 10 * Pow10(4) && Pow10(4) == 10 * Pow10(3);
    }
    assert Pow10(9) == 1_000 * Pow10(6) by {
      assert Pow10(9) == 10 * Pow10(8) && Pow10(8) == 10 * Pow10(7) && Pow10(7) == 10 * Pow10(6);
    }
  }

  const MIN64 := -0x8000_0000_0000_0000
  const MAX64 := 0x7FFF_FFFF_FFFF_FFFF

  predicate In64(x: int) {
    MIN64 <= x <= MAX64
  }

  predicate AllZeros(digits: string) {
    forall i :: 0 <= i < |digits| ==> digits[i] == '0'
  }

  /** The fraction scaled by ten to the `d`, if none of its digits after that says anything. */
  function Scaled10(fraction: string, d: nat): Option<nat>
    requires AllDigits(fraction)
  {
    var n := Min(|fraction|, d);
    if AllZeros(fraction[n..]) then Some(Number(fraction[..n]) * Pow10(d - n)) else None
  }

  function FractionUnits(fraction: string, unit: TimeUnit): Option<nat>
    requires AllDigits(fraction)
  {
    Scaled10(fraction, Digits(unit))
  }

  /** `fraction_units`. */
  method CountFraction(fraction: string, unit: TimeUnit) returns (units: Option<nat>)
    requires AllDigits(fraction)
    ensures units == FractionUnits(fraction, unit)
    ensures units.Some? ==> units.value < PerSecond(unit)
  {
    var n := Min(|fraction|, Digits(unit));
    var kept, dropped := fraction[..n], fraction[n..];
    for i := 0 to |dropped|
      invariant AllZeros(dropped[..i])
    {
      if dropped[i] != '0' {
        assert !AllZeros(dropped);
        return None;
      }
    }
    assert dropped[..|dropped|] == dropped;
    var value := Number(kept);
    NumberBelow(kept);
    for i := n to Digits(unit)
      invariant value == Number(kept) * Pow10(i - n) && value < Pow10(i)
    {
      MoreZeros(Number(kept), i - n, i);
      value := value * 10;
    }
    UnitsPerSecond(unit);
    return Some(value);
  }

  lemma {:induction false} MoreZeros(a: nat, k: nat, i: nat)
    requires a * Pow10(k) < Pow10(i)
    ensures a * Pow10(k) * 10 == a * Pow10(k + 1) && a * Pow10(k) * 10 < Pow10(i + 1)
  {
    Distribute(a, Pow10(k));
  }

  lemma Distribute(a: nat, p: nat)
    ensures a * p * 10 == a * (10 * p)
  {
  }

  /** Seconds since 1970-01-01T00:00:00, in UTC where there is a time zone, without the fraction. */
  function EpochSeconds(m: Moment): int {
    m.days * 86_400 + m.seconds - (if m.zone.Some? then m.zone.value else 0) * 60
  }

  /** The moment as a count of units, by checked multiplication and addition. */
  function CountOf(m: Moment, unit: TimeUnit): Option<int>
    requires AllDigits(m.fraction)
  {
    var whole := EpochSeconds(m) * PerSecond(unit);
    match FractionUnits(m.fraction, unit)
    case None => None
    case Some(part) => if In64(whole) && In64(whole + part) then Some(whole + part) else None
  }

  /** `parse_timestamp`. */
  function ParseTimestamp(text: string, unit: TimeUnit, withZone: bool): Option<int> {
    match ParseMoment(text)
    case None => None
    case Some(m) => if m.zone.Some? != withZone then None else CountOf(m, unit)
  }

  // ---- exact instants -------------------------------------------------------------------------------

  /** The minutes that a zone's clocks are ahead of UTC. */
  function Ahead(zone: Option<int>): int {
    match zone
    case None => 0
    case Some(minutes) => minutes
  }

  /** The instant a text names, in seconds since the epoch: what the clock says, and the zone's minutes before that. */
  function Instant(m: Moment): real
    requires AllDigits(m.fraction)
  {
    86_400.0 * m.days as real - 60.0 * Ahead(m.zone) as real
    + m.seconds as real + Number(m.fraction) as real / Pow10(|m.fraction|) as real
  }

  lemma {:induction false} Below(n: nat, p: nat)
    requires n < p
    ensures 0.0 <= n as real / p as real < 1.0
  {
  }

  /** Its whole seconds are those that the code counts. */
  lemma {:induction false} WholeSeconds(m: Moment)
    requires AllDigits(m.fraction)
    ensures Instant(m) == EpochSeconds(m) as real + Number(m.fraction) as real / Pow10(|m.fraction|) as real
    ensures Instant(m).Floor == EpochSeconds(m)
  {
    NumberBelow(m.fraction);
    Below(Number(m.fraction), Pow10(|m.fraction|));
    assert Instant(m) == EpochSeconds(m) as real + Number(m.fraction) as real / Pow10(|m.fraction|) as real;
  }

  lemma {:induction false} PowSum(a: nat, b: nat)
    ensures Pow10(a + b) == Pow10(a) * Pow10(b)
  {
    if a > 0 {
      PowSum(a - 1, b);
      Distribute(Pow10(b), Pow10(a - 1));
    }
  }

  lemma {:induction false} ZerosCountNothing(digits: string)
    requires AllDigits(digits)
    ensures AllZeros(digits) <==> Number(digits) == 0
  {
    if digits != "" {
      var before := digits[..|digits| - 1];
      ZerosCountNothing(before);
      if AllZeros(before) && digits[|digits| - 1] == '0' {
        assert forall i :: 0 <= i < |digits| ==> digits[i] == if i < |before| then before[i] else '0';
      }
      if AllZeros(digits) {
        assert forall i :: 0 <= i < |before| ==> before[i] == digits[i];
      }
    }
  }

  lemma Minus(v: int, k: int, p: int)
    ensures (v - k) * p == v * p - k * p
  {
  }

  lemma AtLeastOnce(k: int, p: nat)
    ensures k > 0 ==> k * p >= p
    ensures k < 0 ==> k * p <= 0 - p
  {
    Minus(k, 1, p);
    Minus(k, -1, p);
  }

  lemma Cancel(a: int, b: int, p: int)
    requires p > 0
    ensures a * p == b * p <==> a == b
  {
    Minus(a, b, p);
    AtLeastOnce(a - b, p);
  }

  /** A multiple of `p` and a rest below it: there is no rest. */
  lemma NoRest(v: int, k: nat, r: nat, p: nat)
    requires r < p
    ensures v * p == k * p + r <==> v == k && r == 0
  {
    Minus(v, k, p);
    AtLeastOnce(v - k, p);
  }

  lemma {:induction false} ShortFraction(fraction: string, d: nat, v: int)
    requires AllDigits(fraction) && |fraction| <= d
    ensures v * Pow10(|fraction|) == Number(fraction) * Pow10(d) <==> v == Number(fraction) * Pow10(d - |fraction|)
  {
    var p, q := Pow10(d - |fraction|), Pow10(|fraction|);
    PowSum(d - |fraction|, |fraction|);
    Triple(Number(fraction), p, q);
    Cancel(v, Number(fraction) * p, q);
  }

  lemma {:induction false} LongFraction(kept: string, dropped: string, v: int)
    requires AllDigits(kept) && AllDigits(dropped)
    ensures AllDigits(kept + dropped)
    ensures v * Pow10(|kept| + |dropped|) == Number(kept + dropped) * Pow10(|kept|)
            <==> v == Number(kept) && AllZeros(dropped)
  {
    var p, q := Pow10(|dropped|), Pow10(|kept|);
    NumberConcat(kept, dropped);
    NumberBelow(dropped);
    PowSum(|dropped|, |kept|);
    assert |kept| + |dropped| == |dropped| + |kept|;
    NoRestScaled(v, Number(kept), Number(dropped), p, q, Number(kept + dropped));
    ZerosCountNothing(dropped);
  }

  lemma {:induction false} NoRestScaled(v: int, k: nat, r: nat, p: nat, q: nat, n: nat)
    requires n == k * p + r && r < p && q > 0
    ensures v * (p * q) == n * q <==> v == k && r == 0
  {
    Triple(v, p, q);
    Cancel(v * p, n, q);
    NoRest(v, k, r, p);
  }

  lemma {:induction false} Scaled10IsExact(fraction: string, d: nat, v: int)
    requires AllDigits(fraction)
    ensures v * Pow10(|fraction|) == Number(fraction) * Pow10(d)
            <==> Scaled10(fraction, d).Some? && v == Scaled10(fraction, d).value
  {
    if |fraction| <= d {
      assert fraction[..|fraction|] == fraction;
      ShortFraction(fraction, d, v);
    } else {
      assert fraction == fraction[..d] + fraction[d..];
      LongFraction(fraction[..d], fraction[d..], v);
    }
  }

  /** A fraction is refused exactly if the unit cannot hold it, and else counted exactly. */
  lemma FractionIsExact(fraction: string, unit: TimeUnit, v: int)
    requires AllDigits(fraction)
    ensures v * Pow10(|fraction|) == Number(fraction) * PerSecond(unit)
            <==> FractionUnits(fraction, unit).Some? && v == FractionUnits(fraction, unit).value
  {
    UnitsPerSecond(unit);
    Scaled10IsExact(fraction, Digits(unit), v);
  }

  lemma Triple(a: int, p: int, q: int)
    ensures a * (p * q) == a * p * q
  {
  }

  /** The instant in units, as a count. */
  lemma Scaled(m: Moment, unit: TimeUnit, n: int)
    requires AllDigits(m.fraction)
    ensures n as real == Instant(m) * PerSecond(unit) as real
            <==> (n - EpochSeconds(m) * PerSecond(unit)) * Pow10(|m.fraction|) == Number(m.fraction) * PerSecond(unit)
  {
    WholeSeconds(m);
    ScaledReal(EpochSeconds(m), Number(m.fraction), Pow10(|m.fraction|), PerSecond(unit), n);
  }

  lemma ScaledReal(e: int, f: nat, p: nat, u: nat, n: int)
    requires p > 0
    ensures n as real == (e as real + f as real / p as real) * u as real <==> (n - e * u) * p == f * u
  {
    var part := f as real / p as real;
    assert part * p as real == f as real;
    var left := n as real - (e as real + part) * u as real;
    assert left == (n - e * u) as real - part * u as real;
    MulReal(left, (n - e * u) as real, part, u as real, p as real);
    assert left * p as real == ((n - e * u) * p - f * u) as real;
  }

  lemma MulReal(left: real, a: real, part: real, u: real, p: real)
    requires left == a - part * u && p > 0.0
    ensures left * p == a * p - (part * p) * u
    ensures left == 0.0 <==> left * p == 0.0
  {
  }

  /** The count of a moment is its instant in units, where that is a count and fits. */
  lemma CountIsExact(m: Moment, unit: TimeUnit, n: int)
    requires AllDigits(m.fraction)
    ensures CountOf(m, unit) == Some(n)
            <==> && n as real == Instant(m) * PerSecond(unit) as real
                 && In64(Instant(m).Floor * PerSecond(unit)) && In64(n)
  {
    var whole := EpochSeconds(m) * PerSecond(unit);
    WholeSeconds(m);
    Scaled(m, unit, n);
    FractionIsExact(m.fraction, unit, n - whole);
  }

  /**
   * A text with the right kind of time zone is accepted exactly if the unit can hold
   * its instant, and its whole seconds and itself fit; it is then that instant in units.
   */
  lemma TimestampIsExact(text: string, m: Moment, unit: TimeUnit, withZone: bool, n: int)
    requires ParseMoment(text) == Some(m)
    ensures AllDigits(m.fraction)
    ensures ParseTimestamp(text, unit, withZone) == Some(n)
            <==> && m.zone.Some? == withZone
                 && n as real == Instant(m) * PerSecond(unit) as real
                 && In64(Instant(m).Floor * PerSecond(unit)) && In64(n)
  {
    CountIsExact(m, unit, n);
  }

  /** The count is the instant in the unit. */
  ghost predicate Counts(n: int, instant: real, unit: TimeUnit) {
    n as real == instant * PerSecond(unit) as real
  }

  lemma CountIsInstant(m: Moment, unit: TimeUnit)
    requires AllDigits(m.fraction) && CountOf(m, unit).Some?
    ensures Counts(CountOf(m, unit).value, Instant(m), unit)
  {
    CountIsExact(m, unit, CountOf(m, unit).value);
  }

  lemma CountsAreInOrder(a: Moment, b: Moment, unit: TimeUnit)
    requires AllDigits(a.fraction) && AllDigits(b.fraction) && CountOf(a, unit).Some? && CountOf(b, unit).Some?
    ensures CountOf(a, unit).value < CountOf(b, unit).value <==> Instant(a) < Instant(b)
  {
    CountIsInstant(a, unit);
    CountIsInstant(b, unit);
    ScaleOrder(Instant(a), Instant(b), unit, CountOf(a, unit).value, CountOf(b, unit).value);
  }

  /** On texts that are accepted, counts are in the order of the instants. */
  lemma TimestampsInOrder(a: string, b: string, unit: TimeUnit, withZone: bool)
    requires ParseTimestamp(a, unit, withZone).Some? && ParseTimestamp(b, unit, withZone).Some?
    ensures ParseMoment(a).Some? && ParseMoment(b).Some?
    ensures ParseTimestamp(a, unit, withZone).value < ParseTimestamp(b, unit, withZone).value
            <==> Instant(ParseMoment(a).value) < Instant(ParseMoment(b).value)
  {
    CountsAreInOrder(ParseMoment(a).value, ParseMoment(b).value, unit);
  }

  lemma ScaleOrder(x: real, y: real, unit: TimeUnit, n: int, m: int)
    requires Counts(n, x, unit) && Counts(m, y, unit)
    ensures n < m <==> x < y
  {
    var u := PerSecond(unit) as real;
    assert (y - x) * u == y * u - x * u;
  }

  // ---- zones, days and units ---------------------------------------------------------------------

  lemma {:induction false} CountsDiffer(a: Moment, b: Moment, unit: TimeUnit, seconds: int)
    requires AllDigits(a.fraction) && AllDigits(b.fraction) && CountOf(a, unit).Some? && CountOf(b, unit).Some?
    requires Instant(b) == Instant(a) + seconds as real
    ensures CountOf(b, unit).value == CountOf(a, unit).value + seconds * PerSecond(unit)
  {
    CountIsInstant(a, unit);
    CountIsInstant(b, unit);
    var u := PerSecond(unit) as real;
    assert Instant(b) * u == Instant(a) * u + seconds as real * u;
  }

  /** The same clock in a zone that is ahead of UTC by some minutes is that much earlier. */
  lemma {:induction false} ZoneShifts(m: Moment, minutes: int, unit: TimeUnit)
    requires AllDigits(m.fraction) && m.zone == Some(0)
    ensures Instant(m.(zone := Some(minutes))) == Instant(m) - (minutes * 60) as real
    ensures CountOf(m, unit).Some? && CountOf(m.(zone := Some(minutes)), unit).Some? ==>
              CountOf(m.(zone := Some(minutes)), unit).value == CountOf(m, unit).value - minutes * 60 * PerSecond(unit)
  {
    if CountOf(m, unit).Some? && CountOf(m.(zone := Some(minutes)), unit).Some? {
      CountsDiffer(m, m.(zone := Some(minutes)), unit, -minutes * 60);
    }
  }

  /** The same clock a day later is 86,400 seconds later. */
  lemma {:induction false} DayShifts(m: Moment, unit: TimeUnit)
    requires AllDigits(m.fraction)
    ensures Instant(m.(days := m.days + 1)) == Instant(m) + 86_400.0
    ensures CountOf(m, unit).Some? && CountOf(m.(days := m.days + 1), unit).Some? ==>
              CountOf(m.(days := m.days + 1), unit).value == CountOf(m, unit).value + 86_400 * PerSecond(unit)
  {
    if CountOf(m, unit).Some? && CountOf(m.(days := m.days + 1), unit).Some? {
      CountsDiffer(m, m.(days := m.days + 1), unit, 86_400);
    }
  }

  /** A moment without a fraction is its seconds, and each finer unit counts a thousand times as many. */
  lemma {:induction false} UnitsByThousands(m: Moment, seconds: int)
    requires m.fraction == "" && Instant(m) == seconds as real && In64(seconds * 1_000_000_000)
    ensures CountOf(m, Second) == Some(seconds) && CountOf(m, Millisecond) == Some(seconds * 1_000)
    ensures CountOf(m, Microsecond) == Some(seconds * 1_000_000)
    ensures CountOf(m, Nanosecond) == Some(seconds * 1_000_000_000)
  {
    CountIsExact(m, Second, seconds);
    CountIsExact(m, Millisecond, seconds * 1_000);
    CountIsExact(m, Microsecond, seconds * 1_000_000);
    CountIsExact(m, Nanosecond, seconds * 1_000_000_000);
  }

  /**
   * An instant that a count can hold is refused all the same if its whole seconds
   * do not fit: those of the first second of the range, which its fraction brings back in.
   */
  lemma RefusedAtTheEdge(m: Moment, unit: TimeUnit, n: int)
    requires AllDigits(m.fraction) && n as real == Instant(m) * PerSecond(unit) as real && In64(n)
    ensures CountOf(m, unit).None? <==> Instant(m).Floor * PerSecond(unit) < MIN64
  {
    var whole := EpochSeconds(m) * PerSecond(unit);
    WholeSeconds(m);
    CountIsExact(m, unit, n);
    Scaled(m, unit, n);
    FractionIsExact(m.fraction, unit, n - whole);
    if CountOf(m, unit).Some? {
      CountIsExact(m, unit, CountOf(m, unit).value);
    }
  }

  lemma {:induction false} NumberOf(digits: string, n: nat, last: char)
    requires AllDigits(digits) && Number(digits) == n && IsDigit(last)
    ensures AllDigits(digits + [last]) && Number(digits + [last]) == n * 10 + DigitValue(last)
  {
    assert (digits + [last])[..|digits|] == digits;
  }

  lemma EdgeDigits()
    ensures AllDigits("145224192") && Number("145224192") == 145_224_192
  {
    NumberOf("", 0, '1');
    assert "" + ['1'] == "1";
    NumberOf("1", 1, '4');
    assert "1" + ['4'] == "14";
    NumberOf("14", 14, '5');
    assert "14" + ['5'] == "145";
    NumberOf("145", 145, '2');
    assert "145" + ['2'] == "1452";
    NumberOf("1452", 1452, '2');
    assert "1452" + ['2'] == "14522";
    NumberOf("14522", 14522, '4');
    assert "14522" + ['4'] == "145224";
    NumberOf("145224", 145224, '1');
    assert "145224" + ['1'] == "1452241";
    NumberOf("1452241", 1452241, '9');
    assert "1452241" + ['9'] == "14522419";
    NumberOf("14522419", 14522419, '2');
    assert "14522419" + ['2'] == "145224192";
  }

  lemma EdgeDay()
    ensures DaysFromCivil(Civil(1677, 9, 21)) == -106_752
  {
  }

  /** 1677-09-21T00:12:43.145224192Z is the first nanosecond that 64 bits count: it is refused. */
  lemma FirstNanosecondIsRefused() returns (m: Moment)
    ensures m.days == DaysFromCivil(Civil(1677, 9, 21)) && m.seconds == 763 && m.fraction == "145224192"
    ensures m.zone == Some(0)
    ensures AllDigits(m.fraction)
    ensures MIN64 as real == Instant(m) * PerSecond(Nanosecond) as real && CountOf(m, Nanosecond).None?
  {
    EdgeDigits();
    EdgeDay();
    UnitsPerSecond(Nanosecond);
    m := Moment(-106_752, 763, "145224192", Some(0));
    assert EpochSeconds(m) == -9_223_372_037;
    Scaled(m, Nanosecond, MIN64);
    RefusedAtTheEdge(m, Nanosecond, MIN64);
  }

  lemma {:induction false} LastDigits(last: char, n: nat)
    requires IsDigit(last) && n == 854_775_800 + DigitValue(last)
    ensures AllDigits("85477580" + [last]) && Number("85477580" + [last]) == n
  {
    NumberOf("", 0, '8');
    assert "" + ['8'] == "8";
    NumberOf("8", 8, '5');
    assert "8" + ['5'] == "85";
    NumberOf("85", 85, '4');
    assert "85" + ['4'] == "854";
    NumberOf("854", 854, '7');
    assert "854" + ['7'] == "8547";
    NumberOf("8547", 8547, '7');
    assert "8547" + ['7'] == "85477";
    NumberOf("85477", 85477, '5');
    assert "85477" + ['5'] == "854775";
    NumberOf("854775", 854775, '8');
    assert "854775" + ['8'] == "8547758";
    NumberOf("8547758", 8547758, '0');
    assert "8547758" + ['0'] == "85477580";
    NumberOf("85477580", 85477580, last);
  }

  /** 2262-04-11T23:47:16.854775807Z is the last nanosecond that 64 bits count: it is read, and the next is refused. */
  lemma {:induction false} LastNanosecond(m: Moment, last: char)
    requires m.days == DaysFromCivil(Civil(2262, 4, 11)) && m.seconds == 85_636 && m.zone == Some(0)
    requires last in {'7', '8'} && m.fraction == "85477580" + [last]
    ensures AllDigits(m.fraction)
    ensures last == '7' ==> CountOf(m, Nanosecond) == Some(0x7FFF_FFFF_FFFF_FFFF)
    ensures last == '8' ==> CountOf(m, Nanosecond).None?
  {
    LastDigits(last, 854_775_800 + DigitValue(last));
    UnitsPerSecond(Nanosecond);
    assert EpochSeconds(m) == 9_223_372_036;
    var n := 9_223_372_036_854_775_800 + DigitValue(last);
    Scaled(m, Nanosecond, n);
    CountIsExact(m, Nanosecond, n);
    if CountOf(m, Nanosecond).Some? {
      CountIsInstant(m, Nanosecond);
    }
  }
}
