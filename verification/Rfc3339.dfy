/**
 * The hand-written date-time recogniser of the cloud adapter (crates/codebox-agent-codex/src/cloud.rs),
 * proved to accept exactly the printings of a `date-time` of section 5.6 of RFC 3339.
 */
module Rfc3339 {
  import opened CloudTypes
  import opened ByteText

  const PLUS: byte := '+' as int
  const COLON: byte := ':' as int
  const DOT: byte := '.' as int

  predicate IsLetter(b: byte, upper: char, lower: char)
    requires upper as int < 256 && lower as int < 256
  {
    b == upper as int || b == lower as int
  }

  // ----- the grammar

  datatype Zone = Zulu(mark: byte) | Offset(sign: byte, hour: nat, minute: nat)

  datatype DateTime = DateTime(
    year: nat, month: nat, day: nat, separator: byte, hour: nat, minute: nat, second: nat,
    fraction: Option<Bytes>, zone: Zone)

  /** The leap rule of Appendix C: every fourth year, except centuries that 400 does not divide. */
  predicate LeapYear(year: nat) { year % 4 == 0 && (year % 100 != 0 || year % 400 == 0) }

  /** The table of section 5.7. */
  function MonthLength(year: nat, month: nat): nat
    requires 1 <= month <= 12
  {
    [31, if LeapYear(year) then 29 else 28, 31, 30, 31, 30, 31, 31, 30, 31, 30, 31][month - 1]
  }

  predicate ValidClock(d: DateTime) {
    && d.year <= 9999 && 1 <= d.month <= 12 && 1 <= d.day <= MonthLength(d.year, d.month)
    && IsLetter(d.separator, 'T', 't') && d.hour <= 23 && d.minute <= 59 && d.second <= 60
  }

  predicate ValidFraction(f: Option<Bytes>) {
    f.Some? ==> |f.value| > 0 && forall i :: 0 <= i < |f.value| ==> IsDigit(f.value[i])
  }

  predicate ValidZone(z: Zone) {
    match z
    case Zulu(mark) => IsLetter(mark, 'Z', 'z')
    case Offset(sign, hour, minute) => (sign == PLUS || sign == DASH) && hour <= 23 && minute <= 59
  }

  predicate ValidDateTime(d: DateTime) { ValidClock(d) && ValidFraction(d.fraction) && ValidZone(d.zone) }

  function Two(n: nat): Bytes
    requires n <= 99
  {
    [ZERO + n / 10, ZERO + n % 10]
  }

  function Four(n: nat): Bytes
    requires n <= 9999
  {
    Two(n / 100) + Two(n % 100)
  }

  lemma MonthIsShort(year: nat, month: nat)
    requires 1 <= month <= 12
    ensures MonthLength(year, month) <= 31
  {
  }

  function PrintClock(d: DateTime): Bytes
    requires ValidClock(d)
  {
    MonthIsShort(d.year, d.month);
    Four(d.year) + [DASH] + Two(d.month) + [DASH] + Two(d.day) + [d.separator]
    + Two(d.hour) + [COLON] + Two(d.minute) + [COLON] + Two(d.second)
  }

  function PrintFraction(f: Option<Bytes>): Bytes { if f.Some? then [DOT] + f.value else [] }

  function PrintZone(z: Zone): Bytes
    requires ValidZone(z)
  {
    match z
    case Zulu(mark) => [mark]
    case Offset(sign, hour, minute) => [sign] + Two(hour) + [COLON] + Two(minute)
  }

  function Print(d: DateTime): Bytes
    requires ValidDateTime(d)
  {
    PrintClock(d) + PrintFraction(d.fraction) + PrintZone(d.zone)
  }

  ghost predicate IsPrinting(s: Bytes) { exists d :: ValidDateTime(d) && Print(d) == s }

  // ----- the recogniser

  function FoldDigits(s: Bytes, value: nat): Option<nat> {
    if s == [] then Some(value)
    else if IsDigit(s[0]) then FoldDigits(s[1..], value * 10 + (s[0] - ZERO))
    else None
  }

  function ParseDigits(s: Bytes, start: nat, len: nat): Option<nat> {
    if start + len <= |s| then FoldDigits(s[start..start + len], 0) else None
  }

  function DigitPair(first: byte, second: byte): Option<nat> {
    if IsDigit(first) && IsDigit(second) then Some((first - ZERO) * 10 + (second - ZERO)) else None
  }

  function DaysInMonth(year: nat, month: nat): nat {
    if month in {1, 3, 5, 7, 8, 10, 12} then 31
    else if month in {4, 6, 9, 11} then 30
    else if month == 2 then if year % 400 == 0 || (year % 4 == 0 && year % 100 != 0) then 29 else 28
    else 0
  }

  lemma DaysAgree(year: nat, month: nat)
    requires 1 <= month <= 12
    ensures DaysInMonth(year, month) == MonthLength(year, month)
  {
  }

  predicate Separated(s: Bytes) {
    && |s| >= 20 && s[4] == DASH && s[7] == DASH && IsLetter(s[10], 'T', 't') && s[13] == COLON && s[16] == COLON
  }

  predicate InRange(year: nat, month: nat, day: nat, hour: nat, minute: nat, second: nat) {
    && 1 <= month <= 12 && day != 0 && day <= DaysInMonth(year, month) && hour <= 23 && minute <= 59 && second <= 60
  }

  /** The checks on the first nineteen bytes. */
  predicate ClockAccepted(s: Bytes) {
    && Separated(s)
    && var year, month, day := ParseDigits(s, 0, 4), ParseDigits(s, 5, 2), ParseDigits(s, 8, 2);
       var hour, minute, second := ParseDigits(s, 11, 2), ParseDigits(s, 14, 2), ParseDigits(s, 17, 2);
       && year.Some? && month.Some? && day.Some? && hour.Some? && minute.Some? && second.Some?
       && InRange(year.value, month.value, day.value, hour.value, minute.value, second.value)
  }

  predicate ZoneAccepted(s: Bytes) {
    if |s| == 1 then IsLetter(s[0], 'Z', 'z')
    else
      && |s| == 6 && (s[0] == PLUS || s[0] == DASH) && s[3] == COLON
      && var hour, minute := DigitPair(s[1], s[2]), DigitPair(s[4], s[5]);
         hour.Some? && minute.Some? && hour.value <= 23 && minute.value <= 59
  }

  // ----- digits

  lemma FoldTwo(s: Bytes, value: nat)
    requires |s| == 2
    ensures FoldDigits(s, value).Some? <==> IsDigit(s[0]) && IsDigit(s[1])
    ensures FoldDigits(s, value).Some? ==>
              FoldDigits(s, value).value == value * 100 + (s[0] - ZERO) * 10 + (s[1] - ZERO)
  {
    assert s[1..] == [s[1]] && s[1..][1..] == [];
    assert IsDigit(s[0]) ==> FoldDigits(s, value) == FoldDigits(s[1..], value * 10 + (s[0] - ZERO));
  }

  lemma FoldFour(s: Bytes)
    requires |s| == 4
    ensures FoldDigits(s, 0) ==
            if FoldDigits(s[..2], 0).Some? && FoldDigits(s[2..], 0).Some?
            then Some(FoldDigits(s[..2], 0).value * 100 + FoldDigits(s[2..], 0).value) else None
  {
    FoldTwo(s[..2], 0);
    FoldTwo(s[2..], 0);
    if FoldDigits(s[..2], 0).Some? {
      assert s[1..][1..] == s[2..];
      FoldTwo(s[2..], FoldDigits(s[..2], 0).value);
    }
  }

  /** Two bytes parse to `n` exactly when they are its two digits. */
  lemma TwoIff(s: Bytes, n: nat)
    requires |s| == 2
    ensures FoldDigits(s, 0) == Some(n) <==> n <= 99 && s == Two(n)
  {
    FoldTwo(s, 0);
  }

  lemma Hundreds(a: nat, b: nat)
    requires b <= 99
    ensures (a * 100 + b) / 100 == a && (a * 100 + b) % 100 == b
  {
  }

  lemma FourIff(s: Bytes, n: nat)
    requires |s| == 4
    ensures FoldDigits(s, 0) == Some(n) <==> n <= 9999 && s == Four(n)
  {
    FoldFour(s);
    FoldTwo(s[..2], 0);
    FoldTwo(s[2..], 0);
    TwoIff(s[..2], n / 100);
    TwoIff(s[2..], n % 100);
    hide FoldDigits, Two, IsDigit;
    assert s == s[..2] + s[2..];
    if FoldDigits(s[..2], 0).Some? && FoldDigits(s[2..], 0).Some? {
      Hundreds(FoldDigits(s[..2], 0).value, FoldDigits(s[2..], 0).value);
    }
  }

  // ----- the clock

  /** Where the fields of a printed clock lie. */
  predicate LaidOut(s: Bytes, d: DateTime)
    requires ValidClock(d)
  {
    MonthIsShort(d.year, d.month);
    && |s| == 19 && s[..4] == Four(d.year) && s[4] == DASH && s[5..7] == Two(d.month) && s[7] == DASH
    && s[8..10] == Two(d.day) && s[10] == d.separator && s[11..13] == Two(d.hour) && s[13] == COLON
    && s[14..16] == Two(d.minute) && s[16] == COLON && s[17..19] == Two(d.second)
  }

  lemma PrintsLaidOut(d: DateTime)
    requires ValidClock(d)
    ensures LaidOut(PrintClock(d), d)
  {
    var s := PrintClock(d);
    MonthIsShort(d.year, d.month);
    assert s[..4] == Four(d.year) && s[5..7] == Two(d.month) && s[8..10] == Two(d.day);
    assert s[11..13] == Two(d.hour) && s[14..16] == Two(d.minute) && s[17..19] == Two(d.second);
  }

  lemma LaidOutPrints(s: Bytes, d: DateTime)
    requires ValidClock(d) && LaidOut(s, d)
    ensures s == PrintClock(d)
  {
    assert s == s[..4] + [s[4]] + s[5..7] + [s[7]] + s[8..10] + [s[10]] + s[11..13] + [s[13]] + s[14..16] + [s[16]]
                + s[17..19];
  }

  ghost predicate ClockPrinted(s: Bytes) { |s| >= 19 && exists d :: ValidClock(d) && PrintClock(d) == s[..19] }

  lemma AcceptedIsPrinted(s: Bytes)
    requires ClockAccepted(s)
    ensures ClockPrinted(s)
  {
    var year, month, day := ParseDigits(s, 0, 4).value, ParseDigits(s, 5, 2).value, ParseDigits(s, 8, 2).value;
    var hour, minute, second := ParseDigits(s, 11, 2).value, ParseDigits(s, 14, 2).value, ParseDigits(s, 17, 2).value;
    var d := DateTime(year, month, day, s[10], hour, minute, second, None, Zulu(0));
    FourIff(s[0..4], year);
    DaysAgree(year, month);
    assert ValidClock(d);
    Slices(s);
    MonthIsShort(year, month);
    TwoIff(s[5..7], month);
    TwoIff(s[8..10], day);
    TwoIff(s[11..13], hour);
    TwoIff(s[14..16], minute);
    TwoIff(s[17..19], second);
    hide ClockAccepted, ValidClock, Two, Four;
    LaidOutPrints(s[..19], d);
  }

  lemma Slices(s: Bytes)
    requires |s| >= 19
    ensures var t := s[..19];
            && t[..4] == s[0..4] && t[5..7] == s[5..7] && t[8..10] == s[8..10]
            && t[11..13] == s[11..13] && t[14..16] == s[14..16] && t[17..19] == s[17..19]
  {
  }

  lemma PrintedIsAccepted(s: Bytes, d: DateTime)
    requires |s| >= 20 && ValidClock(d) && PrintClock(d) == s[..19]
    ensures ClockAccepted(s)
  {
    PrintsLaidOut(d);
    Slices(s);
    MonthIsShort(d.year, d.month);
    DaysAgree(d.year, d.month);
    hide PrintClock;
    FourIff(s[0..4], d.year);
    TwoIff(s[5..7], d.month);
    TwoIff(s[8..10], d.day);
    TwoIff(s[11..13], d.hour);
    TwoIff(s[14..16], d.minute);
    TwoIff(s[17..19], d.second);
    hide FoldDigits, Two, Four, MonthLength, DaysInMonth;
  }

  // ----- the tail

  ghost predicate TailPrinted(t: Bytes) {
    exists f, z :: ValidFraction(f) && ValidZone(z) && PrintFraction(f) + PrintZone(z) == t
  }

  lemma PrintingSplits(s: Bytes, d: DateTime)
    requires ValidDateTime(d) && Print(d) == s
    ensures |s| >= 19 && s[..19] == PrintClock(d) && s[19..] == PrintFraction(d.fraction) + PrintZone(d.zone)
  {
    PrintsLaidOut(d);
    var tail := PrintFraction(d.fraction) + PrintZone(d.zone);
    var clock := PrintClock(d);
    hide PrintClock, ValidClock, ValidZone, PrintFraction, PrintZone;
    assert s == clock + tail;
  }

  lemma PartsPrint(s: Bytes, c: DateTime, f: Option<Bytes>, z: Zone)
    requires ValidClock(c) && ValidFraction(f) && ValidZone(z) && |s| >= 19
    requires PrintClock(c) == s[..19] && PrintFraction(f) + PrintZone(z) == s[19..]
    ensures var d := c.(fraction := f, zone := z); ValidDateTime(d) && Print(d) == s
  {
    var d := c.(fraction := f, zone := z);
    assert PrintClock(d) == PrintClock(c);
    assert s == s[..19] + s[19..];
  }

  /** A string is a printed date-time exactly when its head is a clock and its tail a fraction and a zone. */
  lemma PrintSplits(s: Bytes)
    ensures IsPrinting(s) <==> ClockPrinted(s) && TailPrinted(s[19..])
  {
    hide Print, PrintClock, PrintZone, PrintFraction, ValidZone, ValidClock, ValidFraction;
    if IsPrinting(s) {
      var d :| ValidDateTime(d) && Print(d) == s;
      PrintingSplits(s, d);
    }
    if ClockPrinted(s) && TailPrinted(s[19..]) {
      var c :| ValidClock(c) && PrintClock(c) == s[..19];
      var f, z :| ValidFraction(f) && ValidZone(z) && PrintFraction(f) + PrintZone(z) == s[19..];
      PartsPrint(s, c, f, z);
    }
  }

  lemma ZoneIff(t: Bytes)
    ensures ZoneAccepted(t) <==> exists z :: ValidZone(z) && PrintZone(z) == t
  {
    if ZoneAccepted(t) {
      if |t| == 1 {
        assert PrintZone(Zulu(t[0])) == t;
      } else {
        var z := Offset(t[0], DigitPair(t[1], t[2]).value, DigitPair(t[4], t[5]).value);
        assert PrintZone(z) == t;
      }
    }
    forall z | ValidZone(z) && PrintZone(z) == t ensures ZoneAccepted(t) {
      PrintedZone(z);
    }
    hide ZoneAccepted, PrintZone, ValidZone;
  }

  lemma PrintedZone(z: Zone)
    requires ValidZone(z)
    ensures ZoneAccepted(PrintZone(z))
  {
  }

  lemma ZoneStart(z: Zone)
    requires ValidZone(z)
    ensures |PrintZone(z)| > 0 && PrintZone(z)[0] != DOT && !IsDigit(PrintZone(z)[0])
  {
  }

  lemma TailStart(f: Option<Bytes>, z: Zone)
    requires ValidZone(z)
    ensures var t := PrintFraction(f) + PrintZone(z); |t| > 0 && (t[0] == DOT <==> f.Some?)
  {
    ZoneStart(z);
    hide PrintZone;
  }

  lemma TailWithoutFraction(t: Bytes)
    requires t == [] || t[0] != DOT
    ensures TailPrinted(t) <==> ZoneAccepted(t)
  {
    ZoneIff(t);
    if TailPrinted(t) {
      var f, z :| ValidFraction(f) && ValidZone(z) && PrintFraction(f) + PrintZone(z) == t;
      TailStart(f, z);
      assert t == PrintZone(z);
    }
    if exists z :: ValidZone(z) && PrintZone(z) == t {
      var z :| ValidZone(z) && PrintZone(z) == t;
      assert PrintFraction(None) + PrintZone(z) == t;
    }
  }

  lemma FractionBuilds(t: Bytes, n: nat, z: Zone)
    requires 1 < n <= |t| && t[0] == DOT && (forall i :: 1 <= i < n ==> IsDigit(t[i]))
    requires ValidZone(z) && PrintZone(z) == t[n..]
    ensures TailPrinted(t)
  {
    hide PrintZone, ValidZone;
    var f := Some(t[1..n]);
    assert t == [DOT] + t[1..n] + t[n..];
    assert ValidFraction(f) && PrintFraction(f) + PrintZone(z) == t;
  }

  /** With a fraction, the digits run up to the first byte that is none. */
  lemma TailWithFraction(t: Bytes, n: nat)
    requires 1 <= n <= |t| && t[0] == DOT && (forall i :: 1 <= i < n ==> IsDigit(t[i])) && (n < |t| ==> !IsDigit(t[n]))
    ensures TailPrinted(t) <==> n > 1 && ZoneAccepted(t[n..])
  {
    ZoneIff(t[n..]);
    hide PrintZone, ValidZone, ZoneAccepted;
    if TailPrinted(t) {
      var f, z :| ValidFraction(f) && ValidZone(z) && PrintFraction(f) + PrintZone(z) == t;
      FractionEnds(t, n, f, z);
    }
    if n > 1 && ZoneAccepted(t[n..]) {
      var z :| ValidZone(z) && PrintZone(z) == t[n..];
      FractionBuilds(t, n, z);
    }
  }

  lemma FractionEnds(t: Bytes, n: nat, f: Option<Bytes>, z: Zone)
    requires 1 <= n <= |t| && t[0] == DOT && (forall i :: 1 <= i < n ==> IsDigit(t[i])) && (n < |t| ==> !IsDigit(t[n]))
    requires ValidFraction(f) && ValidZone(z) && PrintFraction(f) + PrintZone(z) == t
    ensures n > 1 && t[n..] == PrintZone(z)
  {
    ZoneStart(z);
    TailStart(f, z);
    var tail := PrintZone(z);
    hide PrintZone, ValidZone;
    var m := 1 + |f.value|;
    assert t[m] == tail[0];
    forall i | 1 <= i < m ensures IsDigit(t[i]) {
      assert t[i] == f.value[i - 1];
    }
    assert m == n;
    assert t[m..] == tail;
  }

  lemma ClockIff(s: Bytes)
    ensures ClockAccepted(s) <==> |s| >= 20 && ClockPrinted(s)
  {
    if ClockAccepted(s) {
      AcceptedIsPrinted(s);
    }
    if |s| >= 20 && ClockPrinted(s) {
      var d :| ValidClock(d) && PrintClock(d) == s[..19];
      PrintedIsAccepted(s, d);
    }
  }

  lemma TailIsNotEmpty()
    ensures !TailPrinted([])
  {
    TailWithoutFraction([]);
  }

  /** True exactly for the printings of a date-time: any fraction length, either case of T and Z, any second 60. */
  method ValidRfc3339(s: Bytes) returns (ok: bool)
    ensures ok <==> IsPrinting(s)
  {
    PrintSplits(s);
    ClockIff(s);
    TailIsNotEmpty();
    assert |s| == 19 ==> s[19..] == [];
    hide IsPrinting, ClockAccepted, ClockPrinted, TailPrinted, ZoneAccepted;
    if !ClockAccepted(s) {
      return false;
    }
    var zone := 19;
    if s[zone] == DOT {
      zone := zone + 1;
      var start := zone;
      while zone < |s| && IsDigit(s[zone])
        invariant 20 <= zone <= |s|
        invariant forall i :: 20 <= i < zone ==> IsDigit(s[i])
      {
        zone := zone + 1;
      }
      TailWithFraction(s[19..], zone - 19);
      assert s[19..][zone - 19..] == s[zone..];
      if zone == start {
        return false;
      }
    } else {
      TailWithoutFraction(s[19..]);
    }
    ok := ZoneAccepted(s[zone..]);
  }
}
