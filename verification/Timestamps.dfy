/**
 The gRPC leg of a fetch: the worker prints the quote's instant as RFC 3339 text with nanoseconds and
 the dispatcher parses it back.
 */
module Timestamps {
  import opened Prelude
  import opened Tables

  // ----- digits -----

  predicate Digit(c: char) { '0' <= c <= '9' }

  predicate AllDigits(s: string) {
    forall i :: 0 <= i < |s| ==> Digit(s[i])
  }

  function Decimal(s: string): nat
    requires AllDigits(s)
  {
    if s == [] then 0 else 10 * Decimal(s[..|s| - 1]) + (s[|s| - 1] as int - '0' as int)
  }

  function Number(s: string): Option<nat> {
    if s != [] && AllDigits(s) then Some(Decimal(s)) else None
  }

  function Pow10(k: nat): nat {
    if k == 0 then 1 else 10 * Pow10(k - 1)
  }

  /** The last `width` decimal digits. */
  function Pad(n: nat, width: nat): (s: string)
    ensures |s| == width && AllDigits(s)
  {
    if width == 0 then "" else Pad(n / 10, width - 1) + [('0' as int + n % 10) as char]
  }

  /** All its digits, and at least four. */
  function YearText(y: nat): (s: string)
    ensures AllDigits(s) && |s| >= 4 && (|s| == 4 <==> y < 10000)
  {
    if y < 10000 then Pad(y, 4) else YearText(y / 10) + Pad(y, 1)
  }

  lemma {:induction false} PadDecimal(n: nat, width: nat)
    requires n < Pow10(width)
    ensures Decimal(Pad(n, width)) == n
  {
    if width > 0 {
      PadDecimal(n / 10, width - 1);
      assert Pad(n, width)[..width - 1] == Pad(n / 10, width - 1);
    }
  }

  lemma NumberOfPad(n: nat, width: nat)
    requires (width == 2 && n < 100) || (width == 4 && n < 10000)
    ensures Number(Pad(n, width)) == Some(n)
  {
    assert Pow10(1) == 10 && Pow10(2) == 100 && Pow10(3) == 1000 && Pow10(4) == 10000;
    PadDecimal(n, width);
  }

  // ----- the fraction -----

  function Trimmed(s: string): string {
    if s != [] && s[|s| - 1] == '0' then Trimmed(s[..|s| - 1]) else s
  }

  function Filled(s: string, width: nat): (r: string)
    requires AllDigits(s)
    ensures AllDigits(r) && |r| == width
    decreases width
  {
    if width <= |s| then s[..width] else Filled(s, width - 1) + "0"
  }

  lemma {:induction false} FilledTrimmed(s: string)
    requires AllDigits(s)
    ensures AllDigits(Trimmed(s)) && |Trimmed(s)| <= |s|
    ensures Filled(Trimmed(s), |s|) == s
    ensures Trimmed(s) != [] ==> Trimmed(s)[|Trimmed(s)| - 1] != '0'
  {
    if s != [] && s[|s| - 1] == '0' {
      FilledTrimmed(s[..|s| - 1]);
      assert s == s[..|s| - 1] + "0";
    } else {
      assert s[..|s|] == s;
    }
  }

  function FractionText(nanos: nat): string {
    if nanos == 0 then "" else "." + Trimmed(Pad(nanos, 9))
  }

  /** Digits past the ninth are dropped. */
  function Nanos(digits: string): nat
    requires AllDigits(digits)
  {
    Decimal(Filled(digits, 9))
  }

  function Span(s: string): (k: nat)
    ensures k <= |s| && AllDigits(s[..k])
  {
    if s == [] || !Digit(s[0]) then 0 else
      assert s[..1 + Span(s[1..])] == [s[0]] + s[1..][..Span(s[1..])];
      1 + Span(s[1..])
  }

  lemma {:induction false} SpanOf(a: string, b: string)
    requires AllDigits(a) && (b == [] || !Digit(b[0]))
    ensures Span(a + b) == |a|
  {
    if a == [] {
      assert a + b == b;
    } else {
      assert (a + b)[1..] == a[1..] + b;
      SpanOf(a[1..], b);
    }
  }

  /** A fraction is a period or comma and at least one digit; anything else is left for the zone. */
  function ParseFraction(s: string): (nat, string) {
    if |s| >= 2 && (s[0] == '.' || s[0] == ',') && Digit(s[1]) then
      (Nanos(s[1..][..Span(s[1..])]), s[1..][Span(s[1..])..])
    else
      (0, s)
  }

  lemma FractionRoundTrip(nanos: nat, zone: string)
    requires nanos < 1_000_000_000
    requires zone != [] && !Digit(zone[0]) && zone[0] != '.' && zone[0] != ','
    ensures ParseFraction(FractionText(nanos) + zone) == (nanos, zone)
  {
    if nanos == 0 {
      assert FractionText(nanos) + zone == zone;
    } else {
      var digits := Trimmed(Pad(nanos, 9));
      NinePlaces(nanos);
      DigitsThenZone(digits, zone);
      assert FractionText(nanos) + zone == "." + digits + zone;
    }
  }

  lemma DigitsThenZone(digits: string, zone: string)
    requires AllDigits(digits) && digits != []
    requires zone != [] && !Digit(zone[0])
    ensures ParseFraction("." + digits + zone) == (Nanos(digits), zone)
  {
    var s := "." + digits + zone;
    assert s[1..] == digits + zone;
    assert s[1] == digits[0];
    SpanOf(digits, zone);
    assert s[1..][..|digits|] == digits && s[1..][|digits|..] == zone;
  }

  lemma NinePlaces(nanos: nat)
    requires 0 < nanos < 1_000_000_000
    ensures AllDigits(Trimmed(Pad(nanos, 9))) && Trimmed(Pad(nanos, 9)) != []
    ensures Nanos(Trimmed(Pad(nanos, 9))) == nanos
  {
    assert Pow10(3) == 1000 && Pow10(6) == 1000 * Pow10(3) && Pow10(9) == 1000 * Pow10(6);
    PadDecimal(nanos, 9);
    FilledTrimmed(Pad(nanos, 9));
    if Trimmed(Pad(nanos, 9)) == [] {
      ZerosDecimal(9);
    }
  }

  lemma {:induction false} ZerosDecimal(width: nat)
    ensures Decimal(Filled("", width)) == 0
  {
    if width > 0 {
      ZerosDecimal(width - 1);
      assert Filled("", width)[..|Filled("", width)| - 1] == Filled("", width - 1);
    }
  }

  // ----- the calendar -----

  predicate Leap(y: nat) { y % 4 == 0 && (y % 100 != 0 || y % 400 == 0) }

  function YearDays(y: nat): nat { if Leap(y) then 366 else 365 }

  function MonthDays(y: nat, m: nat): nat
    requires 1 <= m <= 12
  {
    if m == 2 then YearDays(y) - 337
    else if m == 4 || m == 6 || m == 9 || m == 11 then 30
    else 31
  }

  /** Days from the first of January of year 0. */
  function DaysToYear(y: nat): nat {
    if y == 0 then 0 else DaysToYear(y - 1) + YearDays(y - 1)
  }

  function DaysToMonth(y: nat, m: nat): nat
    requires 1 <= m <= 13
  {
    if m == 1 then 0 else DaysToMonth(y, m - 1) + MonthDays(y, m - 1)
  }

  datatype Date = Date(year: nat, month: nat, day: nat)

  predicate IsDate(d: Date) {
    1 <= d.month <= 12 && 1 <= d.day <= MonthDays(d.year, d.month)
  }

  function DayNumber(d: Date): nat
    requires IsDate(d)
  {
    DaysToYear(d.year) + DaysToMonth(d.year, d.month) + d.day - 1
  }

  /** The year in which day n after the start of year y falls. */
  function YearOf(n: nat, y: nat): nat
    decreases n
  {
    if n < YearDays(y) then y else YearOf(n - YearDays(y), y + 1)
  }

  /** The month in which day n after the start of month m falls. */
  function MonthOf(n: nat, y: nat, m: nat): (r: nat)
    requires 1 <= m <= 12
    ensures m <= r <= 12
    decreases 12 - m
  {
    if m == 12 || n < MonthDays(y, m) then m else MonthOf(n - MonthDays(y, m), y, m + 1)
  }

  lemma {:induction false} YearOfSpans(n: nat, y: nat)
    ensures DaysToYear(YearOf(n, y)) <= DaysToYear(y) + n < DaysToYear(YearOf(n, y) + 1)
    decreases n
  {
    if n >= YearDays(y) {
      YearOfSpans(n - YearDays(y), y + 1);
    }
  }

  lemma {:induction false} MonthOfSpans(n: nat, y: nat, m: nat)
    requires 1 <= m <= 12 && DaysToMonth(y, m) + n < YearDays(y)
    ensures DaysToMonth(y, MonthOf(n, y, m)) <= DaysToMonth(y, m) + n < DaysToMonth(y, MonthOf(n, y, m) + 1)
    decreases 12 - m
  {
    if m == 12 {
      YearOfMonths(y);
    } else if n >= MonthDays(y, m) {
      MonthOfSpans(n - MonthDays(y, m), y, m + 1);
    }
  }

  lemma YearOfMonths(y: nat)
    ensures DaysToMonth(y, 13) == YearDays(y)
  {
    var toApril, toAugust, toDecember := YearDays(y) - 275, YearDays(y) - 153, YearDays(y) - 31;
    assert DaysToMonth(y, 2) == 31 && DaysToMonth(y, 3) == YearDays(y) - 306 && DaysToMonth(y, 4) == toApril;
    assert DaysToMonth(y, 5) == toApril + 30 && DaysToMonth(y, 6) == toApril + 61;
    assert DaysToMonth(y, 7) == toApril + 91 && DaysToMonth(y, 8) == toAugust;
    assert DaysToMonth(y, 9) == toAugust + 31 && DaysToMonth(y, 10) == toAugust + 61;
    assert DaysToMonth(y, 11) == toAugust + 92 && DaysToMonth(y, 12) == toDecember;
  }

  function DateOf(n: nat): (d: Date)
    ensures IsDate(d) && DayNumber(d) == n
  {
    var y := YearOf(n, 0);
    YearOfSpans(n, 0);
    var k := n - DaysToYear(y);
    var m := MonthOf(k, y, 1);
    MonthOfSpans(k, y, 1);
    Date(y, m, k - DaysToMonth(y, m) + 1)
  }

  lemma {:induction false} DaysToYearGrows(y: nat, z: nat)
    requires y < z
    ensures DaysToYear(y) + YearDays(y) <= DaysToYear(z)
  {
    if y + 1 < z {
      DaysToYearGrows(y, z - 1);
    }
  }

  lemma {:induction false} DaysToMonthGrows(y: nat, m: nat, k: nat)
    requires 1 <= m < k <= 13
    ensures DaysToMonth(y, m) + MonthDays(y, m) <= DaysToMonth(y, k)
  {
    if m + 1 < k {
      DaysToMonthGrows(y, m, k - 1);
    }
  }

  lemma WithinYear(d: Date)
    requires IsDate(d)
    ensures DaysToYear(d.year) <= DayNumber(d) < DaysToYear(d.year) + YearDays(d.year)
  {
    YearOfMonths(d.year);
    if d.month < 12 {
      DaysToMonthGrows(d.year, d.month, 13);
    }
  }

  /** A day has one date. */
  lemma DayNumberInjective(a: Date, b: Date)
    requires IsDate(a) && IsDate(b) && DayNumber(a) == DayNumber(b)
    ensures a == b
  {
    WithinYear(a);
    WithinYear(b);
    if a.year < b.year { DaysToYearGrows(a.year, b.year); }
    if b.year < a.year { DaysToYearGrows(b.year, a.year); }
    if a.month < b.month { DaysToMonthGrows(a.year, a.month, b.month); }
    if b.month < a.month { DaysToMonthGrows(a.year, b.month, a.month); }
  }

  lemma {:induction false} DaysToYearClosed(y: nat)
    ensures DaysToYear(y) == 365 * y + (y + 3) / 4 - (y + 99) / 100 + (y + 399) / 400
  {
    if y > 0 {
      DaysToYearClosed(y - 1);
      LeapDays(y - 1);
    }
  }

  /** The months begin where the civil calendar has them begin, by the usual closed form. */
  lemma {:induction false} DaysToMonthClosed(y: nat, m: nat)
    requires 1 <= m <= 12
    ensures m == 1 ==> DaysToMonth(y, m) == 0
    ensures m == 2 ==> DaysToMonth(y, m) == 31
    ensures m >= 3 ==> DaysToMonth(y, m) == (153 * (m - 3) + 2) / 5 + 59 + if Leap(y) then 1 else 0
  {
    if m > 1 {
      DaysToMonthClosed(y, m - 1);
    }
  }

  /** What one year adds to the closed form: one more multiple is behind us after a multiple. */
  lemma LeapDays(k: nat)
    ensures YearDays(k) == 365 + ((k + 4) / 4 - (k + 3) / 4) - ((k + 100) / 100 - (k + 99) / 100)
      + ((k + 400) / 400 - (k + 399) / 400)
  {
    Fours(k);
    Hundreds(k);
    FourHundreds(k);
    Multiples(k);
  }

  lemma Fours(k: nat)
    ensures (k + 4) / 4 - (k + 3) / 4 == if k % 4 == 0 then 1 else 0
  {
  }

  lemma Hundreds(k: nat)
    ensures (k + 100) / 100 - (k + 99) / 100 == if k % 100 == 0 then 1 else 0
  {
  }

  lemma FourHundreds(k: nat)
    ensures (k + 400) / 400 - (k + 399) / 400 == if k % 400 == 0 then 1 else 0
  {
  }

  lemma Multiples(k: nat)
    ensures k % 400 == 0 ==> k % 100 == 0
    ensures k % 100 == 0 ==> k % 4 == 0
  {
    assert k % 400 == 0 ==> k == 100 * (4 * (k / 400));
    assert k % 100 == 0 ==> k == 4 * (25 * (k / 100));
  }

  /** The first of January 1970. */
  const EPOCH_DAY: nat := 719_528

  lemma EpochDayIs()
    ensures DateOf(EPOCH_DAY) == Date(1970, 1, 1)
  {
    DaysToYearClosed(1970);
    assert IsDate(Date(1970, 1, 1)) && DayNumber(Date(1970, 1, 1)) == EPOCH_DAY;
    DayNumberInjective(DateOf(EPOCH_DAY), Date(1970, 1, 1));
  }

  // ----- the text -----

  const NANOS_PER_MINUTE: int := 60_000_000_000
  const NANOS_PER_DAY: int := 86_400_000_000_000

  /** Nanoseconds of local time since the start of year 0; `zone` is minutes east of UTC. */
  function Local(at: int, zone: int): int {
    at + zone * NANOS_PER_MINUTE + EPOCH_DAY * NANOS_PER_DAY
  }

  /** The instant of a local day and time of day. */
  function Moment(day: nat, seconds: nat, nanos: nat, zone: int): int {
    (day - EPOCH_DAY) * NANOS_PER_DAY + seconds * 1_000_000_000 + nanos - zone * NANOS_PER_MINUTE
  }

  lemma MomentOfLocal(at: int, zone: int)
    requires Local(at, zone) >= 0
    ensures
      var rest := Local(at, zone) % NANOS_PER_DAY;
      0 <= rest / 1_000_000_000 < 86400 &&
        Moment(Local(at, zone) / NANOS_PER_DAY, rest / 1_000_000_000, rest % 1_000_000_000, zone) == at
  {
  }

  function DateText(d: Date): string {
    YearText(d.year) + "-" + Pad(d.month, 2) + "-" + Pad(d.day, 2)
  }

  function ClockText(seconds: nat): (s: string)
    ensures |s| == 8
  {
    Pad(seconds / 3600, 2) + ":" + Pad(seconds / 60 % 60, 2) + ":" + Pad(seconds % 60, 2)
  }

  function ZoneText(zone: int): (s: string)
    ensures s != [] && !Digit(s[0]) && s[0] != '.' && s[0] != ','
  {
    if zone == 0 then "Z"
    else if zone > 0 then "+" + Pad(zone / 60, 2) + ":" + Pad(zone % 60, 2)
    else "-" + Pad(-zone / 60, 2) + ":" + Pad(-zone % 60, 2)
  }

  function MomentText(d: Date, seconds: nat, nanos: nat, zone: int): string {
    DateText(d) + "T" + ClockText(seconds) + (FractionText(nanos) + ZoneText(zone))
  }

  function Format(at: int, zone: int): string
    requires Local(at, zone) >= 0
  {
    var day := Local(at, zone) / NANOS_PER_DAY;
    var rest := Local(at, zone) % NANOS_PER_DAY;
    MomentText(DateOf(day), rest / 1_000_000_000, rest % 1_000_000_000, zone)
  }

  function ParseDate(s: string): Option<Date>
    requires |s| == 10
  {
    if s[4] != '-' || s[7] != '-' then None else
      match (Number(s[..4]), Number(s[5..7]), Number(s[8..]))
      case (Some(y), Some(m), Some(d)) => if IsDate(Date(y, m, d)) then Some(Date(y, m, d)) else None
      case _ => None
  }

  function ParseClock(s: string): Option<nat>
    requires |s| == 8
  {
    if s[2] != ':' || s[5] != ':' then None else
      match (Number(s[..2]), Number(s[3..5]), Number(s[6..]))
      case (Some(h), Some(m), Some(sec)) => if h < 24 && m < 60 && sec < 60 then Some(h * 3600 + m * 60 + sec) else None
      case _ => None
  }

  function ParseZone(s: string): Option<int> {
    if s == "Z" then Some(0)
    else if |s| != 6 || (s[0] != '+' && s[0] != '-') || s[3] != ':' then None
    else
      match (Number(s[1..3]), Number(s[4..]))
      case (Some(h), Some(m)) =>
        var minutes: int := h * 60 + m;
        if h <= 24 && m <= 60 then Some(if s[0] == '+' then minutes else -minutes) else None
      case _ => None
  }

  function Parse(text: string): Result<int> {
    if |text| < 20 || text[10] != 'T' then Err("cannot parse") else
      var (nanos, tail) := ParseFraction(text[19..]);
      match (ParseDate(text[..10]), ParseClock(text[11..19]), ParseZone(tail))
      case (Some(d), Some(seconds), Some(zone)) =>
        Ok(Moment(DayNumber(d), seconds, nanos, zone))
      case _ => Err("cannot parse")
  }

  lemma DateRoundTrip(d: Date)
    requires IsDate(d) && d.year < 10000
    ensures |DateText(d)| == 10 && ParseDate(DateText(d)) == Some(d)
  {
    var s := DateText(d);
    NumberOfPad(d.year, 4);
    NumberOfPad(d.month, 2);
    NumberOfPad(d.day, 2);
    assert s[..4] == Pad(d.year, 4) && s[5..7] == Pad(d.month, 2) && s[8..] == Pad(d.day, 2);
  }

  lemma ClockRoundTrip(seconds: nat)
    requires seconds < 86400
    ensures ParseClock(ClockText(seconds)) == Some(seconds)
  {
    var s := ClockText(seconds);
    NumberOfPad(seconds / 3600, 2);
    NumberOfPad(seconds / 60 % 60, 2);
    NumberOfPad(seconds % 60, 2);
    assert s[..2] == Pad(seconds / 3600, 2) && s[3..5] == Pad(seconds / 60 % 60, 2) && s[6..] == Pad(seconds % 60, 2);
    assert seconds / 60 / 60 == seconds / 3600;
  }

  lemma ZoneRoundTrip(zone: int)
    requires -1440 < zone < 1440
    ensures ParseZone(ZoneText(zone)) == Some(zone)
  {
    if zone != 0 {
      var s, size := ZoneText(zone), if zone > 0 then zone else -zone;
      NumberOfPad(size / 60, 2);
      NumberOfPad(size % 60, 2);
      assert s[1..3] == Pad(size / 60, 2) && s[4..] == Pad(size % 60, 2);
    }
  }

  /** A five-digit year pushes its fifth digit where the first hyphen should be. */
  lemma LongYear(d: Date, tail: string)
    requires d.year >= 10000
    ensures |DateText(d) + tail| > 10 && ParseDate((DateText(d) + tail)[..10]) == None
  {
    assert (DateText(d) + tail)[4] == YearText(d.year)[4];
  }

  /** The local year has four digits. */
  predicate FourDigits(at: int, zone: int)
    requires Local(at, zone) >= 0
  {
    DateOf(Local(at, zone) / NANOS_PER_DAY).year < 10000
  }

  /**
   Printing and parsing an instant gives it back, in whatever zone it was printed, exactly when its
   year has four digits.
   */
  lemma InstantRoundTrip(at: int, zone: int)
    requires Local(at, zone) >= 0 && -1440 < zone < 1440
    ensures Parse(Format(at, zone)) == Ok(at) <==> FourDigits(at, zone)
    ensures Parse(Format(at, zone)).Err? <==> !FourDigits(at, zone)
  {
    var local := Local(at, zone);
    var d, rest := DateOf(local / NANOS_PER_DAY), local % NANOS_PER_DAY;
    var seconds, nanos := rest / 1_000_000_000, rest % 1_000_000_000;
    MomentOfLocal(at, zone);
    if d.year >= 10000 {
      TooLong(d, ClockText(seconds), FractionText(nanos) + ZoneText(zone));
    } else {
      PartsRoundTrip(d, seconds, nanos, zone);
    }
  }

  lemma TooLong(d: Date, clock: string, rest: string)
    requires d.year >= 10000
    ensures Parse(DateText(d) + "T" + clock + rest).Err?
  {
    LongYear(d, "T" + clock + rest);
    assert DateText(d) + "T" + clock + rest == DateText(d) + ("T" + clock + rest);
  }

  lemma PartsRoundTrip(d: Date, seconds: nat, nanos: nat, zone: int)
    requires IsDate(d) && d.year < 10000 && seconds < 86400 && nanos < 1_000_000_000 && -1440 < zone < 1440
    ensures Parse(MomentText(d, seconds, nanos, zone)) == Ok(Moment(DayNumber(d), seconds, nanos, zone))
  {
    DateRoundTrip(d);
    ClockRoundTrip(seconds);
    FractionRoundTrip(nanos, ZoneText(zone));
    ZoneRoundTrip(zone);
    ParseParts(DateText(d), ClockText(seconds), FractionText(nanos) + ZoneText(zone),
      d, seconds, nanos, ZoneText(zone), zone);
  }

  lemma ParseParts(date: string, clock: string, rest: string,
      d: Date, seconds: nat, nanos: nat, tail: string, zone: int)
    requires |date| == 10 && |clock| == 8 && rest != []
    requires ParseDate(date) == Some(d) && IsDate(d) && ParseClock(clock) == Some(seconds)
    requires ParseFraction(rest) == (nanos, tail) && ParseZone(tail) == Some(zone)
    ensures Parse(date + "T" + clock + rest) == Ok(Moment(DayNumber(d), seconds, nanos, zone))
  {
    var text := date + "T" + clock + rest;
    assert text[..10] == date && text[10] == 'T' && text[11..19] == clock && text[19..] == rest;
  }

  // ----- texts with any number of year digits -----

  lemma {:induction false} YearDecimal(y: nat)
    ensures Decimal(YearText(y)) == y
  {
    assert Pow10(1) == 10 && Pow10(2) == 100 && Pow10(3) == 1000 && Pow10(4) == 10000;
    if y < 10000 {
      PadDecimal(y, 4);
    } else {
      YearDecimal(y / 10);
      var s := YearText(y);
      assert Pad(y, 1) == [('0' as int + y % 10) as char];
      assert s[..|s| - 1] == YearText(y / 10);
    }
  }

  /** What follows the year. */
  function Tail(d: Date, seconds: nat, rest: string): string {
    "-" + Pad(d.month, 2) + "-" + Pad(d.day, 2) + "T" + ClockText(seconds) + rest
  }

  lemma YearThenTail(d: Date, seconds: nat, rest: string)
    ensures DateText(d) + "T" + ClockText(seconds) + rest == YearText(d.year) + Tail(d, seconds, rest)
  {
  }

  lemma SameYear(y: nat, s: string, z: nat, t: string)
    requires YearText(y) + s == YearText(z) + t && s != [] && t != [] && s[0] == '-' && t[0] == '-'
    ensures y == z && s == t
  {
    SpanOf(YearText(y), s);
    SpanOf(YearText(z), t);
    assert (YearText(y) + s)[..|YearText(y)|] == YearText(y);
    assert (YearText(z) + t)[..|YearText(z)|] == YearText(z);
    YearDecimal(y);
    YearDecimal(z);
    assert (YearText(y) + s)[|YearText(y)|..] == s;
    assert (YearText(z) + t)[|YearText(z)|..] == t;
  }

  /** A year of four digits with the same calendar. */
  function Twin(y: nat): nat { y % 400 + 2000 }

  lemma {:induction false} SameMonths(y: nat, m: nat)
    requires 1 <= m <= 13
    ensures YearDays(Twin(y)) == YearDays(y) && DaysToMonth(Twin(y), m) == DaysToMonth(y, m)
  {
    TwinIsLeap(y);
    if m > 1 {
      SameMonths(y, m - 1);
    }
  }

  lemma TwinIsLeap(y: nat)
    ensures Leap(Twin(y)) <==> Leap(y)
  {
    ModFour(y / 400, y % 400);
    ModHundred(y / 400, y % 400);
  }

  lemma ModFour(q: nat, r: nat)
    ensures (400 * q + r) % 4 == r % 4 == (r + 2000) % 4
  {
    assert (4 * (100 * q) + r) % 4 == r % 4;
  }

  lemma ModHundred(q: nat, r: nat)
    ensures (400 * q + r) % 100 == r % 100 == (r + 2000) % 100
  {
    assert (100 * (4 * q) + r) % 100 == r % 100;
  }

  /** Moved to the twin year, a date moves by a number of days that depends on the year only. */
  lemma TwinDate(d: Date)
    requires IsDate(d)
    ensures IsDate(d.(year := Twin(d.year)))
    ensures DayNumber(d) - DayNumber(d.(year := Twin(d.year))) == DaysToYear(d.year) - DaysToYear(Twin(d.year))
  {
    SameMonths(d.year, d.month);
  }

  /** The same text of two dates and times is the same moment. */
  lemma SameTextSameMoment(d: Date, seconds: nat, nanos: nat, zone: int, e: Date, secs: nat, ns: nat, z: int)
    requires IsDate(d) && seconds < 86400 && nanos < 1_000_000_000 && -1440 < zone < 1440
    requires IsDate(e) && secs < 86400 && ns < 1_000_000_000 && -1440 < z < 1440
    ensures MomentText(d, seconds, nanos, zone) == MomentText(e, secs, ns, z)
      ==> Moment(DayNumber(d), seconds, nanos, zone) == Moment(DayNumber(e), secs, ns, z)
  {
    var rest, rest' := FractionText(nanos) + ZoneText(zone), FractionText(ns) + ZoneText(z);
    YearThenTail(d, seconds, rest);
    YearThenTail(e, secs, rest');
    if MomentText(d, seconds, nanos, zone) == MomentText(e, secs, ns, z) {
      SameYear(d.year, Tail(d, seconds, rest), e.year, Tail(e, secs, rest'));
      var d', e' := d.(year := Twin(d.year)), e.(year := Twin(e.year));
      TwinDate(d);
      TwinDate(e);
      YearThenTail(d', seconds, rest);
      YearThenTail(e', secs, rest');
      PartsRoundTrip(d', seconds, nanos, zone);
      PartsRoundTrip(e', secs, ns, z);
    }
  }

  /** Different instants never print alike, whatever their zones and however long their years. */
  lemma TextsDiffer(a: int, aZone: int, b: int, bZone: int)
    requires Local(a, aZone) >= 0 && -1440 < aZone < 1440
    requires Local(b, bZone) >= 0 && -1440 < bZone < 1440
    ensures a != b ==> Format(a, aZone) != Format(b, bZone)
  {
    MomentOfLocal(a, aZone);
    MomentOfLocal(b, bZone);
    var x, y := Local(a, aZone) % NANOS_PER_DAY, Local(b, bZone) % NANOS_PER_DAY;
    if Format(a, aZone) == Format(b, bZone) {
      SameTextSameMoment(DateOf(Local(a, aZone) / NANOS_PER_DAY), x / 1_000_000_000, x % 1_000_000_000, aZone,
        DateOf(Local(b, bZone) / NANOS_PER_DAY), y / 1_000_000_000, y % 1_000_000_000, bZone);
    }
  }

  /** Each field of the text, read on its own. */
  predicate Fields(text: string, d: Date, seconds: nat) {
    && |text| >= 19
    && Number(text[..4]) == Some(d.year) && text[4] == '-'
    && Number(text[5..7]) == Some(d.month) && text[7] == '-'
    && Number(text[8..10]) == Some(d.day) && text[10] == 'T'
    && Number(text[11..13]) == Some(seconds / 3600) && text[13] == ':'
    && Number(text[14..16]) == Some(seconds / 60 % 60) && text[16] == ':'
    && Number(text[17..19]) == Some(seconds % 60)
  }

  /** At most nine digits after a period, the last one not zero, or nothing at all. */
  predicate Fraction(text: string, nanos: nat) {
    if nanos == 0 then text == ""
    else
      && 1 < |text| <= 10 && text[0] == '.' && text[|text| - 1] != '0'
      && AllDigits(text[1..]) && Nanos(text[1..]) == nanos
  }

  /** "Z" for UTC, else a sign, two digits of hours, a colon and two digits of minutes. */
  predicate Offset(text: string, zone: int) {
    if zone == 0 then text == "Z"
    else
      && |text| == 6 && text[0] == (if zone > 0 then '+' else '-') && text[3] == ':'
      && Number(text[1..3]) == Some(Abs(zone) / 60) && Number(text[4..]) == Some(Abs(zone) % 60)
  }

  function Abs(n: int): nat { if n >= 0 then n else -n }

  lemma OffsetForm(zone: int)
    requires -1440 < zone < 1440
    ensures Offset(ZoneText(zone), zone)
  {
    var s := ZoneText(zone);
    if zone != 0 {
      NumberOfPad(Abs(zone) / 60, 2);
      NumberOfPad(Abs(zone) % 60, 2);
      assert s[1..3] == Pad(Abs(zone) / 60, 2) && s[4..] == Pad(Abs(zone) % 60, 2);
    }
  }

  /**
   The text is the date-time of section 5.6 of RFC 3339, without trailing fraction zeros: the civil date
   and the time of day of the local instant, counted from the start of year 0, which is
   62167219200 seconds before the start of 1970.
   */
  lemma TextForm(at: int, zone: int)
    requires Local(at, zone) >= 0 && -1440 < zone < 1440
    ensures FourDigits(at, zone) ==>
      var local := at + zone * 60_000_000_000 + 62_167_219_200_000_000_000;
      var (day, rest) := (local / 86_400_000_000_000, local % 86_400_000_000_000);
      && IsDate(DateOf(day)) && DayNumber(DateOf(day)) == day
      && Fields(Format(at, zone), DateOf(day), rest / 1_000_000_000)
      && exists fraction, offset :: Fraction(fraction, rest % 1_000_000_000) && Offset(offset, zone)
          && Format(at, zone)[19..] == fraction + offset
  {
    if FourDigits(at, zone) {
      var rest := Local(at, zone) % NANOS_PER_DAY;
      var nanos := rest % 1_000_000_000;
      FractionForm(nanos);
      OffsetForm(zone);
      FieldsForm(DateOf(Local(at, zone) / NANOS_PER_DAY), rest / 1_000_000_000, FractionText(nanos) + ZoneText(zone));
    }
  }

  /** What is accepted is a date of the calendar, a time of day, perhaps a fraction, and an offset: that moment. */
  lemma ParseMeans(text: string)
    ensures Parse(text).Ok? ==> exists d, seconds, nanos, zone ::
      Means(text, d, seconds, nanos, zone) && Parse(text) == Ok(Moment(DayNumber(d), seconds, nanos, zone))
  {
    if Parse(text).Ok? {
      var (nanos, tail) := ParseFraction(text[19..]);
      var d, seconds, zone := ParseDate(text[..10]).value, ParseClock(text[11..19]).value, ParseZone(tail).value;
      FieldsOf(text, d, seconds);
      FractionBound(text[19..]);
      FractionRead(text[19..]);
      OffsetRead(tail, zone);
      assert Means(text, d, seconds, nanos, zone);
    }
  }

  ghost predicate ReadsFraction(text: string, nanos: nat, tail: string) {
    || (text == tail && nanos == 0)
    || (exists digits :: digits != "" && AllDigits(digits) && nanos == Nanos(digits)
          && (text == "." + digits + tail || text == "," + digits + tail))
  }

  lemma FractionRead(text: string)
    ensures var (nanos, tail) := ParseFraction(text); ReadsFraction(text, nanos, tail)
  {
    if |text| >= 2 && (text[0] == '.' || text[0] == ',') && Digit(text[1]) {
      var digits := text[1..][..Span(text[1..])];
      assert text == [text[0]] + digits + text[1..][Span(text[1..])..];
      assert digits != "";
    }
  }

  lemma OffsetRead(tail: string, zone: int)
    requires ParseZone(tail) == Some(zone)
    ensures ReadsOffset(tail, zone)
  {
  }

  ghost predicate ReadsOffset(tail: string, zone: int) {
    if tail == "Z" then zone == 0
    else
      && |tail| == 6 && (tail[0] == '+' || tail[0] == '-') && tail[3] == ':'
      && exists h, m :: Number(tail[1..3]) == Some(h) && Number(tail[4..]) == Some(m)
          && zone == if tail[0] == '+' then h * 60 + m else -(h * 60 + m)
  }

  lemma FractionBound(s: string)
    ensures ParseFraction(s).0 < 1_000_000_000
  {
    if |s| >= 2 {
      NanosBound(s[1..][..Span(s[1..])]);
    }
  }

  ghost predicate Means(text: string, d: Date, seconds: nat, nanos: nat, zone: int) {
    && IsDate(d) && seconds < 86400 && nanos < 1_000_000_000 && Fields(text, d, seconds)
    && exists tail :: ReadsFraction(text[19..], nanos, tail) && ReadsOffset(tail, zone)
  }

  lemma FieldsOf(text: string, d: Date, seconds: nat)
    requires |text| >= 20 && text[10] == 'T'
    requires ParseDate(text[..10]) == Some(d) && ParseClock(text[11..19]) == Some(seconds)
    ensures Fields(text, d, seconds) && IsDate(d) && seconds < 86400
  {
    var date, clock := text[..10], text[11..19];
    DateFields(date, d);
    ClockFields(clock, seconds);
    assert date[..4] == text[..4] && date[5..7] == text[5..7] && date[8..] == text[8..10];
    assert clock[..2] == text[11..13] && clock[3..5] == text[14..16] && clock[6..] == text[17..19];
  }

  lemma DateFields(s: string, d: Date)
    requires |s| == 10 && ParseDate(s) == Some(d)
    ensures IsDate(d) && s[4] == '-' && s[7] == '-'
    ensures Number(s[..4]) == Some(d.year) && Number(s[5..7]) == Some(d.month) && Number(s[8..]) == Some(d.day)
  {
  }

  lemma ClockFields(s: string, seconds: nat)
    requires |s| == 8 && ParseClock(s) == Some(seconds)
    ensures seconds < 86400 && s[2] == ':' && s[5] == ':'
    ensures Number(s[..2]) == Some(seconds / 3600)
    ensures Number(s[3..5]) == Some(seconds / 60 % 60) && Number(s[6..]) == Some(seconds % 60)
  {
    var h, m, sec := Number(s[..2]).value, Number(s[3..5]).value, Number(s[6..]).value;
    ClockParts(h, m, sec);
  }

  lemma ClockParts(h: nat, m: nat, sec: nat)
    requires h < 24 && m < 60 && sec < 60
    ensures
      var seconds := h * 3600 + m * 60 + sec;
      seconds < 86400 && seconds / 3600 == h && seconds / 60 % 60 == m && seconds % 60 == sec
  {
    assert (h * 3600 + m * 60 + sec) / 60 == h * 60 + m;
  }

  lemma {:induction false} DecimalBound(s: string)
    requires AllDigits(s)
    ensures Decimal(s) < Pow10(|s|)
  {
    if s != [] {
      DecimalBound(s[..|s| - 1]);
    }
  }

  lemma NanosBound(digits: string)
    requires AllDigits(digits)
    ensures Nanos(digits) < 1_000_000_000
  {
    assert Pow10(3) == 1000 && Pow10(6) == 1000 * Pow10(3) && Pow10(9) == 1000 * Pow10(6);
    DecimalBound(Filled(digits, 9));
  }

  lemma FieldsForm(d: Date, seconds: nat, rest: string)
    requires IsDate(d) && d.year < 10000 && seconds < 86400
    ensures
      var text := DateText(d) + "T" + ClockText(seconds) + rest;
      Fields(text, d, seconds) && text[19..] == rest
  {
    var text := DateText(d) + "T" + ClockText(seconds) + rest;
    NumberOfPad(d.year, 4);
    NumberOfPad(d.month, 2);
    NumberOfPad(d.day, 2);
    NumberOfPad(seconds / 3600, 2);
    NumberOfPad(seconds / 60 % 60, 2);
    NumberOfPad(seconds % 60, 2);
    assert text[..4] == Pad(d.year, 4) && text[5..7] == Pad(d.month, 2) && text[8..10] == Pad(d.day, 2);
    assert text[11..13] == Pad(seconds / 3600, 2) && text[14..16] == Pad(seconds / 60 % 60, 2) &&
      text[17..19] == Pad(seconds % 60, 2);
  }

  lemma FractionForm(nanos: nat)
    requires nanos < 1_000_000_000
    ensures Fraction(FractionText(nanos), nanos)
  {
    if nanos > 0 {
      NinePlaces(nanos);
      FilledTrimmed(Pad(nanos, 9));
      assert FractionText(nanos)[1..] == Trimmed(Pad(nanos, 9));
    }
  }

  // ----- the call -----

  datatype FetchResponse = FetchResponse(pair: string, price: real, updatedAt: string)

  /** The worker's answer, from what FetchQuote returned in some zone. */
  function Fetch(fetched: Result<Quote>, zone: int): Result<FetchResponse>
    requires fetched.Ok? ==> Local(fetched.value.at, zone) >= 0
  {
    match fetched
    case Err(e) => Err(e)
    case Ok(q) => Ok(FetchResponse(q.pair, q.price, Format(q.at, zone)))
  }

  /** What the dispatcher hands to CompleteQuoteUpdate. */
  function Received(answer: Result<FetchResponse>): Result<Quote> {
    match answer
    case Err(e) => Err(e)
    case Ok(res) =>
      match Parse(res.updatedAt)
      case Err(e) => Err(e)
      case Ok(at) => Ok(Quote(res.pair, res.price, at))
  }

  /**
   The dispatcher completes the job with exactly what the worker fetched, quote or error, and a year
   of five digits fails it.
   */
  lemma GrpcIsTransparent(fetched: Result<Quote>, zone: int)
    requires fetched.Ok? ==> Local(fetched.value.at, zone) >= 0
    requires -1440 < zone < 1440
    ensures Received(Fetch(fetched, zone)) == fetched <==> (fetched.Ok? ==> FourDigits(fetched.value.at, zone))
    ensures Received(Fetch(fetched, zone)).Ok? ==> Received(Fetch(fetched, zone)) == fetched
  {
    if fetched.Ok? {
      InstantRoundTrip(fetched.value.at, zone);
    }
  }
}
