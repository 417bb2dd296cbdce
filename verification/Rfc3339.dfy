/** The date and time formats of RFC 3339: the checks as the code makes them, and the texts
    they accept. */

module Rfc3339 {
  import opened Regexes

  const DIGITS := set c: char | '0' <= c <= '9'

  // ---------------------------------------------------------------- numbers of fixed width

  predicate AllDigits(s: string) {
    forall i | 0 <= i < |s| :: '0' <= s[i] <= '9'
  }

  function Digit(d: nat): char
    requires d < 10
  {
    ('0' as int + d) as char
  }

  function Two(n: nat): string
    requires n < 100
  {
    [Digit(n / 10), Digit(n % 10)]
  }

  function Four(n: nat): string
    requires n < 10000
  {
    Two(n / 100) + Two(n % 100)
  }

  /** `stoi` on digits behind an optional sign. */
  function Stoi(s: string): int
    requires s != "" && AllDigits(s[1..])
    requires s[0] == '+' || s[0] == '-' || '0' <= s[0] <= '9'
  {
    var tail: int := Value(s[1..]);
    if s[0] == '-' then -tail else if s[0] == '+' then tail
    else
      assert AllDigits(s);
      Value(s)
  }

  function Value(s: string): (n: nat)
    requires AllDigits(s)
  {
    if s == "" then 0 else 10 * Value(s[..|s| - 1]) + (s[|s| - 1] as int - '0' as int)
  }

  lemma {:induction false} ValueOfTwo(s: string)
    requires |s| == 2 && AllDigits(s)
    ensures Value(s) == 10 * (s[0] as int - '0' as int) + (s[1] as int - '0' as int) < 100 && Two(Value(s)) == s
  {
    assert s[..1][..0] == "";
    assert Value(s[..1]) == s[0] as int - '0' as int;
  }

  lemma {:induction false} ValueOfFour(s: string)
    requires |s| == 4 && AllDigits(s)
    ensures Value(s) == 100 * Value(s[..2]) + Value(s[2..]) < 10000 && Four(Value(s)) == s
  {
    FourFromTwo(s);
    ValueOfTwo(s[..2]);
    ValueOfTwo(s[2..]);
    var x, y := Value(s[..2]), Value(s[2..]);
    assert Value(s) / 100 == x && Value(s) % 100 == y;
    assert s == s[..2] + s[2..];
  }

  lemma {:induction false} FourFromTwo(s: string)
    requires |s| == 4 && AllDigits(s)
    ensures AllDigits(s[..2]) && AllDigits(s[2..]) && Value(s) == 100 * Value(s[..2]) + Value(s[2..])
  {
    ValueOfTwo(s[2..]);
    var t := s[..3];
    assert t[..2] == s[..2] && AllDigits(t) && AllDigits(s[..2]);
    assert Value(t) == 10 * Value(s[..2]) + (s[2] as int - '0' as int);
    assert Value(s) == 10 * Value(t) + (s[3] as int - '0' as int);
  }

  lemma TwoValue(n: nat)
    requires n < 100
    ensures AllDigits(Two(n)) && Value(Two(n)) == n
  {
    ValueOfTwo(Two(n));
  }

  // ---------------------------------------------------------------- dates

  datatype Date = Date(year: nat, month: nat, day: nat)

  const DATE := Chain([DIGITS, DIGITS, DIGITS, DIGITS, {'-'}, DIGITS, DIGITS, {'-'}, DIGITS, DIGITS])

  predicate DateShape(s: string) {
    |s| == 10 && AllDigits(s[..4]) && s[4] == '-' && AllDigits(s[5..7]) && s[7] == '-' && AllDigits(s[8..])
  }

  lemma {:induction false} DateShapeIff(s: string)
    ensures Matches(DATE, s) <==> DateShape(s)
  {
    ChainIff([DIGITS, DIGITS, DIGITS, DIGITS, {'-'}, DIGITS, DIGITS, {'-'}, DIGITS, DIGITS], s);
    if DateShape(s) {
      assert forall i | 0 <= i < 4 :: s[..4][i] == s[i];
      assert forall i | 5 <= i < 7 :: s[5..7][i - 5] == s[i];
      assert forall i | 8 <= i < 10 :: s[8..][i - 8] == s[i];
    }
  }

  function PrintDate(d: Date): string
    requires d.year < 10000 && d.month < 100 && d.day < 100
  {
    Four(d.year) + "-" + Two(d.month) + "-" + Two(d.day)
  }

  function ReadDate(s: string): Date
    requires DateShape(s)
  {
    Date(Value(s[..4]), Value(s[5..7]), Value(s[8..]))
  }

  /** Days of a month in the Gregorian calendar. */
  function DaysIn(year: nat, month: nat): nat {
    if month == 2 then if year % 400 == 0 || (year % 4 == 0 && year % 100 != 0) then 29 else 28
    else if month in {4, 6, 9, 11} then 30 else 31
  }

  /** Leap days before the first day of a year. */
  function LeapDaysBefore(year: nat): int { (year + 3) / 4 - (year + 99) / 100 + (year + 399) / 400 }

  /** Days before the m-th month of a year that begins in March. */
  function DaysBeforeFrom(m: nat): int { (153 * m + 2) / 5 }

  /** February has the leap day of its year; the other months, counted from March, are as long as the
      usual formula for the day of the year says. */
  lemma Gregorian(year: nat, month: nat)
    requires 1 <= month <= 12
    ensures month == 2 ==> DaysIn(year, month) == 28 + LeapDaysBefore(year + 1) - LeapDaysBefore(year)
    ensures month != 2 ==>
      var m := (month + 9) % 12; DaysIn(year, month) == DaysBeforeFrom(m + 1) - DaysBeforeFrom(m)
  {
    if month == 2 { LeapDay(year); }
  }

  lemma LeapDay(year: nat)
    ensures LeapDaysBefore(year + 1) - LeapDaysBefore(year)
      == if year % 400 == 0 || (year % 4 == 0 && year % 100 != 0) then 1 else 0
  {
    var c, y := year / 400, year % 400;
    assert year == 400 * c + y;
    NextQuotient(year, 4);
    NextQuotient(year, 100);
    NextQuotient(year, 400);
  }

  lemma NextQuotient(n: nat, d: nat)
    requires d > 0
    ensures (n + 1 + (d - 1)) / d - (n + (d - 1)) / d == if n % d == 0 then 1 else 0
  {
    var q, r := n / d, n % d;
    assert n == q * d + r;
    Quotient(n + d, q + 1, r, d);
    if r == 0 { Quotient(n + d - 1, q, d - 1, d); } else { Quotient(n + d - 1, q + 1, r - 1, d); }
  }

  lemma Quotient(n: nat, q: nat, r: nat, d: nat)
    requires n == q * d + r && r < d
    ensures n / d == q
  {
    var p, m := n / d, n % d;
    assert n == p * d + m;
    AtLeastOnce(p - q, d);
    assert (p - q) * d == p * d - q * d;
  }

  lemma AtLeastOnce(k: int, d: int)
    requires d >= 0
    ensures k >= 1 ==> k * d >= d
    ensures k <= -1 ==> k * d <= -d
  {
    if k >= 1 { assert k * d == (k - 1) * d + d; }
    if k <= -1 { assert k * d == (k + 1) * d - d && -(k + 1) * d >= 0; }
  }

  predicate ValidDate(d: Date) {
    d.year < 10000 && 1 <= d.month <= 12 && 1 <= d.day <= DaysIn(d.year, d.month)
  }

  lemma DateRoundTrip(d: Date)
    requires d.year < 10000 && d.month < 100 && d.day < 100
    ensures DateShape(PrintDate(d)) && ReadDate(PrintDate(d)) == d
  {
    var s := PrintDate(d);
    TwoValue(d.year / 100);
    TwoValue(d.year % 100);
    TwoValue(d.month);
    TwoValue(d.day);
    assert s[..4] == Four(d.year) && s[5..7] == Two(d.month) && s[8..] == Two(d.day);
    ValueOfFour(Four(d.year));
    assert Four(d.year)[..2] == Two(d.year / 100) && Four(d.year)[2..] == Two(d.year % 100);
  }

  lemma DateTextRoundTrip(s: string)
    requires DateShape(s)
    ensures var d := ReadDate(s); d.year < 10000 && d.month < 100 && d.day < 100 && PrintDate(d) == s
  {
    ValueOfFour(s[..4]);
    ValueOfTwo(s[5..7]);
    ValueOfTwo(s[8..]);
    assert s == s[..4] + [s[4]] + s[5..7] + [s[7]] + s[8..];
  }

  method RangeCheck(value: int, min: int, max: int) returns (ok: bool)
    ensures ok <==> min <= value <= max
  {
    ok := value >= min && value <= max;
  }

  lemma CodeDays(year: nat, month: nat)
    requires 1 <= month <= 12 && month != 2
    ensures DaysIn(year, month) == if month <= 7 then if month % 2 == 0 then 30 else 31 else if month % 2 == 0 then 31
      else 30
  {
  }

  /** `rfc3339_date_check`: exactly the printed valid dates pass. */
  method DateCheck(value: string) returns (ok: bool)
    ensures ok <==> DateShape(value) && ValidDate(ReadDate(value))
  {
    if !DateShape(value) { return false; }
    DateTextRoundTrip(value);
    var year, month, mday := Value(value[..4]), Value(value[5..7]), Value(value[8..]);
    var isLeapYear := year % 4 == 0 && (year % 100 != 0 || year % 400 == 0);
    ok := RangeCheck(month, 1, 12);
    if !ok { return; }
    if month != 2 { CodeDays(year, month); }
    if month == 2 {
      ok := RangeCheck(mday, 1, if isLeapYear then 29 else 28);
    } else if month <= 7 {
      ok := RangeCheck(mday, 1, if month % 2 == 0 then 30 else 31);
    } else {
      ok := RangeCheck(mday, 1, if month % 2 == 0 then 31 else 30);
    }
  }

  lemma DatesAccepted(s: string)
    ensures DateShape(s) && ValidDate(ReadDate(s)) <==> exists d | ValidDate(d) :: s == PrintDate(d)
  {
    if DateShape(s) { DateTextRoundTrip(s); }
    if d :| ValidDate(d) && s == PrintDate(d) { DateRoundTrip(d); }
  }

  // ---------------------------------------------------------------- times

  datatype Offset = Zulu(mark: char) | Numeric(sign: char, hour: nat, minute: nat)

  /** A time of day; without a fraction the field is empty. */
  datatype Time = Time(hour: nat, minute: nat, second: nat, fraction: string, offset: Offset)

  const CLOCK := Chain([DIGITS, DIGITS, {':'}, DIGITS, DIGITS, {':'}, DIGITS, DIGITS])
  const FRACTION := Optional(Cat(Lit('.'), Plus(Class(DIGITS))))
  const NUMERIC := Chain([{'+', '-'}, DIGITS, DIGITS, {':'}, DIGITS, DIGITS])
  const OFFSET := Or(Class({'Z', 'z'}), NUMERIC)
  const TIME := Cat(CLOCK, Cat(FRACTION, OFFSET))

  predicate ClockShape(s: string) {
    |s| == 8 && AllDigits(s[..2]) && s[2] == ':' && AllDigits(s[3..5]) && s[5] == ':' && AllDigits(s[6..])
  }

  predicate FractionShape(s: string) {
    s != "" ==> |s| > 1 && s[0] == '.' && AllDigits(s[1..])
  }

  predicate NumericShape(s: string) {
    |s| == 6 && s[0] in {'+', '-'} && AllDigits(s[1..3]) && s[3] == ':' && AllDigits(s[4..])
  }

  predicate OffsetShape(s: string) {
    s in {"Z", "z"} || NumericShape(s)
  }

  /** Where the offset begins: one character or six from the end. */
  function Split(s: string): nat {
    if s != "" && s[|s| - 1] in {'Z', 'z'} then |s| - 1 else if |s| >= 6 then |s| - 6 else 0
  }

  predicate TimeShape(s: string) {
    8 <= Split(s) && ClockShape(s[..8]) && FractionShape(s[8..Split(s)]) && OffsetShape(s[Split(s)..])
  }

  lemma {:induction false} ClockShapeIff(s: string)
    ensures Matches(CLOCK, s) <==> ClockShape(s)
  {
    ChainIff([DIGITS, DIGITS, {':'}, DIGITS, DIGITS, {':'}, DIGITS, DIGITS], s);
    if ClockShape(s) {
      assert forall i | 0 <= i < 2 :: s[..2][i] == s[i];
      assert forall i | 3 <= i < 5 :: s[3..5][i - 3] == s[i];
      assert forall i | 6 <= i < 8 :: s[6..][i - 6] == s[i];
    }
  }

  lemma {:induction false} NumericShapeIff(s: string)
    ensures Matches(NUMERIC, s) <==> NumericShape(s)
  {
    ChainIff([{'+', '-'}, DIGITS, DIGITS, {':'}, DIGITS, DIGITS], s);
    if NumericShape(s) {
      assert forall i | 1 <= i < 3 :: s[1..3][i - 1] == s[i];
      assert forall i | 4 <= i < 6 :: s[4..][i - 4] == s[i];
    }
  }

  lemma {:induction false} FractionShapeIff(s: string)
    ensures Matches(FRACTION, s) <==> FractionShape(s)
  {
    var dot, digits := Lit('.'), Plus(Class(DIGITS));
    OrIff(Cat(dot, digits), Eps, s);
    if Matches(Cat(dot, digits), s) {
      var x, y := CatElim(dot, digits, s);
      PlusClassIff(DIGITS, y);
      assert s[1..] == y;
    }
    if s != "" && FractionShape(s) {
      PlusClassIff(DIGITS, s[1..]);
      CatIntro(dot, digits, ".", s[1..]);
      assert "." + s[1..] == s;
    }
  }

  lemma SplitAt(a: string, f: string, o: string)
    requires |a| == 8 && OffsetShape(o)
    ensures var s := a + f + o;
      Split(s) == 8 + |f| && s[..8] == a && s[8..Split(s)] == f && s[Split(s)..] == o
  {
    var s := a + f + o;
    assert s[|s| - 1] == o[|o| - 1];
    if NumericShape(o) { assert '0' <= o[4..][1] <= '9'; }
  }

  lemma {:induction false} OffsetShapeIff(o: string)
    ensures Matches(OFFSET, o) <==> OffsetShape(o)
  {
    OrIff(Class({'Z', 'z'}), NUMERIC, o);
    NumericShapeIff(o);
    if |o| == 1 { assert o == [o[0]]; }
  }

  lemma {:induction false} TimeShapeElim(s: string)
    requires Matches(TIME, s)
    ensures TimeShape(s)
  {
    var a, rest := CatElim(CLOCK, Cat(FRACTION, OFFSET), s);
    var f, o := CatElim(FRACTION, OFFSET, rest);
    ClockShapeIff(a);
    FractionShapeIff(f);
    OffsetShapeIff(o);
    SplitAt(a, f, o);
    Associates(a, f, o);
  }

  lemma {:induction false} TimeShapeIntro(s: string)
    requires TimeShape(s)
    ensures Matches(TIME, s)
  {
    var a, f, o := s[..8], s[8..Split(s)], s[Split(s)..];
    ClockShapeIff(a);
    FractionShapeIff(f);
    OffsetShapeIff(o);
    CatIntro(FRACTION, OFFSET, f, o);
    CatIntro(CLOCK, Cat(FRACTION, OFFSET), a, f + o);
    assert s == a + (f + o);
  }

  lemma {:induction false} TimeShapeIff(s: string)
    ensures Matches(TIME, s) <==> TimeShape(s)
  {
    if Matches(TIME, s) { TimeShapeElim(s); }
    if TimeShape(s) { TimeShapeIntro(s); }
  }

  predicate WellShaped(t: Time) {
    && t.hour < 100 && t.minute < 100 && t.second < 100 && AllDigits(t.fraction)
    && match t.offset
       case Zulu(mark) => mark in {'Z', 'z'}
       case Numeric(sign, h, m) => sign in {'+', '-'} && h < 100 && m < 100
  }

  function PrintClock(t: Time): string
    requires WellShaped(t)
  {
    Two(t.hour) + ":" + Two(t.minute) + ":" + Two(t.second)
  }

  function PrintFraction(t: Time): string {
    if t.fraction == "" then "" else "." + t.fraction
  }

  function PrintOffset(t: Time): string
    requires WellShaped(t)
  {
    match t.offset
    case Zulu(mark) => [mark]
    case Numeric(sign, h, m) => [sign] + Two(h) + ":" + Two(m)
  }

  function PrintTime(t: Time): string
    requires WellShaped(t)
  {
    PrintClock(t) + PrintFraction(t) + PrintOffset(t)
  }

  function ReadOffset(o: string): Offset
    requires OffsetShape(o)
  {
    if |o| == 1 then Zulu(o[0]) else Numeric(o[0], Value(o[1..3]), Value(o[4..]))
  }

  function ReadTime(s: string): Time
    requires TimeShape(s)
  {
    var f := s[8..Split(s)];
    Time(Value(s[..8][..2]), Value(s[..8][3..5]), Value(s[..8][6..]), if f == "" then ""
      else f[1..], ReadOffset(s[Split(s)..]))
  }

  lemma TimeRoundTrip(t: Time)
    requires WellShaped(t)
    ensures TimeShape(PrintTime(t)) && ReadTime(PrintTime(t)) == t
  {
    var a, f, o := PrintClock(t), PrintFraction(t), PrintOffset(t);
    TwoValue(t.hour);
    TwoValue(t.minute);
    TwoValue(t.second);
    assert a[..2] == Two(t.hour) && a[3..5] == Two(t.minute) && a[6..] == Two(t.second);
    OffsetRoundTrip(t);
    SplitAt(a, f, o);
    assert t.fraction != "" ==> f[1..] == t.fraction;
  }

  lemma OffsetRoundTrip(t: Time)
    requires WellShaped(t)
    ensures OffsetShape(PrintOffset(t)) && ReadOffset(PrintOffset(t)) == t.offset
  {
    var o := PrintOffset(t);
    match t.offset
    case Zulu(_) =>
    case Numeric(sign, h, m) =>
      TwoValue(h);
      TwoValue(m);
      assert o[1..3] == Two(h) && o[4..] == Two(m);
  }

  lemma OffsetTextRoundTrip(t: Time, o: string)
    requires OffsetShape(o) && t.offset == ReadOffset(o) && t.hour < 100 && t.minute < 100 && t.second < 100
    requires AllDigits(t.fraction)
    ensures WellShaped(t) && PrintOffset(t) == o
  {
    if |o| == 6 {
      ValueOfTwo(o[1..3]);
      ValueOfTwo(o[4..]);
      assert o == [o[0]] + o[1..3] + [o[3]] + o[4..];
    } else {
      assert o == [o[0]];
    }
  }

  lemma TimeTextRoundTrip(s: string)
    requires TimeShape(s)
    ensures WellShaped(ReadTime(s)) && PrintTime(ReadTime(s)) == s
  {
    var a, f, o, t := s[..8], s[8..Split(s)], s[Split(s)..], ReadTime(s);
    ValueOfTwo(a[..2]);
    ValueOfTwo(a[3..5]);
    ValueOfTwo(a[6..]);
    assert a == a[..2] + [a[2]] + a[3..5] + [a[5]] + a[6..];
    assert f == PrintFraction(t);
    OffsetTextRoundTrip(t, o);
    assert s == a + f + o;
  }

  // ---------------------------------------------------------------- valid times

  const DAY := 24 * 60

  /** How far local time is ahead of UTC, in minutes. */
  function Ahead(offset: Offset): int {
    match offset
    case Zulu(_) => 0
    case Numeric(sign, h, m) => if sign == '-' then -(h * 60 + m) else h * 60 + m
  }

  /** Minute of the day in UTC. */
  function UtcMinute(t: Time): int { (t.hour * 60 + t.minute - Ahead(t.offset)) % DAY }

  predicate InRanges(t: Time) {
    && WellShaped(t) && t.hour <= 23 && t.minute <= 59
    && (t.offset.Numeric? ==> t.offset.hour <= 23 && t.offset.minute <= 59)
  }

  /** Sections 5.6 and 5.7 of RFC 3339: second 60 is the last second of a UTC day. */
  predicate ValidTime(t: Time) {
    InRanges(t) && (t.second <= 59 || (t.second == 60 && UtcMinute(t) == DAY - 1))
  }

  /** What the code takes for the offset: "-00" loses its sign. */
  function CodeAhead(offset: Offset): int {
    match offset
    case Zulu(_) => 0
    case Numeric(sign, h, m) => if sign == '-' && h > 0 then -(h * 60 + m) else h * 60 + m
  }

  predicate Passes(t: Time) {
    InRanges(t) && (t.second <= 59
      || (t.second == 60 && (t.hour * 60 + t.minute - CodeAhead(t.offset)) % DAY == DAY - 1))
  }

  /** Minutes of a day split by 24 instead of 60: 59 and 23 come out for 1439 only. */
  lemma LastMinute(m: int)
    requires -DAY < m < 2 * DAY - 1
    ensures var d := if m < 0 then m + DAY else m;
      (d % 24 == 23 && d / 24 == 59) <==> m % DAY == DAY - 1
  {
    var d := if m < 0 then m + DAY else m;
    assert d == d / 24 * 24 + d % 24;
    if m < 0 { assert m % DAY == d; }
    else if m < DAY { assert m % DAY == m; }
    else { assert m % DAY == m - DAY; }
  }

  /** `rfc3339_time_check` */
  method TimeCheck(value: string) returns (ok: bool)
    ensures ok <==> TimeShape(value) && Passes(ReadTime(value))
  {
    if !TimeShape(value) { return false; }
    Readable(value);
    ghost var t := ReadTime(value);
    var hour, minute, second := Value(value[..8][..2]), Value(value[..8][3..5]), Value(value[..8][6..]);
    ok := RangeCheck(hour, 0, 23);
    if !ok { return; }
    ok := RangeCheck(minute, 0, 59);
    if !ok { return; }
    var offsetHour: int, offsetMinute: int;
    ok, offsetHour, offsetMinute := OffsetCheck(value[Split(value)..]);
    if !ok { return; }
    ok := SecondCheck(hour, minute, second, offsetHour, offsetMinute);
  }

  lemma Readable(s: string)
    requires TimeShape(s)
    ensures WellShaped(ReadTime(s)) && ReadTime(s).offset == ReadOffset(s[Split(s)..])
  {
    TimeTextRoundTrip(s);
  }

  /** The part of the check about the offset, skipped for "Z". */
  method OffsetCheck(offset: string) returns (ok: bool, offsetHour: int, offsetMinute: int)
    requires OffsetShape(offset)
    ensures ok <==> (var o := ReadOffset(offset); o.Numeric? ==> o.hour <= 23 && o.minute <= 59)
    ensures ok ==>
      offsetHour * 60 + offsetMinute == CodeAhead(ReadOffset(offset)) && -DAY < offsetHour * 60 + offsetMinute < DAY
  {
    ok, offsetHour, offsetMinute := true, 0, 0;
    if |offset| > 1 {
      SignedHour(offset);
      offsetHour := Stoi(offset[..3]);
      offsetMinute := Value(offset[4..]);
      ok := RangeCheck(offsetHour, -23, 23);
      if !ok { return; }
      ok := RangeCheck(offsetMinute, 0, 59);
      if !ok { return; }
      if offsetHour < 0 {
        offsetMinute := -offsetMinute;
      }
    }
  }

  /** The end of the check, which reuses its variables for the time in UTC: second 60 in the last
      minute of the UTC day only. */
  method SecondCheck(localHour: int, localMinute: int, second: int, offsetHour: int, offsetMinute: int)
    returns (ok: bool)
    requires 0 <= localHour <= 23 && 0 <= localMinute <= 59 && -DAY < offsetHour * 60 + offsetMinute < DAY
    ensures ok <==>
      && 0 <= second
      && (second <= 59
          || (second == 60 && (localHour * 60 + localMinute - (offsetHour * 60 + offsetMinute)) % DAY == DAY - 1))
  {
    var hour, minute := localHour, localMinute;
    var dayMinutes := hour * 60 + minute - (offsetHour * 60 + offsetMinute);
    LastMinute(dayMinutes);
    if dayMinutes < 0 {
      dayMinutes := dayMinutes + 60 * 24;
    }
    hour := dayMinutes % 24;
    minute := dayMinutes / 24;
    if hour == 23 && minute == 59 {
      ok := RangeCheck(second, 0, 60);
    } else {
      ok := RangeCheck(second, 0, 59);
    }
  }

  lemma SignedHour(o: string)
    requires NumericShape(o)
    ensures AllDigits(o[..3][1..]) && o[..3][0] == o[0]
    ensures Stoi(o[..3]) == if o[0] == '-' then 0 - Value(o[1..3]) else Value(o[1..3])
  {
    assert o[..3][1..] == o[1..3];
  }

  /** The code agrees with RFC 3339 on every time but these: second 60 with an offset "-00:MM",
      MM not zero, where reading the offset as "+00:MM" or as "-00:MM" gives the last minute of
      the UTC day. */
  predicate SignLost(t: Time) {
    && t.second == 60 && t.offset.Numeric? && t.offset.sign == '-' && t.offset.hour == 0 && t.offset.minute != 0
    && t.hour * 60 + t.minute in {DAY - 1 - t.offset.minute, t.offset.minute - 1}
  }

  lemma PassesIffValid(t: Time)
    requires InRanges(t)
    ensures (Passes(t) <==> ValidTime(t)) <==> !SignLost(t)
  {
    if t.offset.Numeric? && t.offset.sign == '-' && t.offset.hour == 0 {
      var local, m := t.hour * 60 + t.minute, t.offset.minute;
      assert (local + m) % DAY == if local + m < DAY then local + m else local + m - DAY;
      assert (local - m) % DAY == if local - m < 0 then local - m + DAY else local - m;
    }
  }

  /** The examples of RFC 3339, section 5.8: leap seconds at the end of a UTC day are valid and
      accepted in any offset, and elsewhere they are neither. */
  lemma LeapSecondExamples()
    ensures forall t | t in [Time(23, 59, 60, "", Zulu('Z')), Time(15, 59, 60, "", Numeric('-', 8, 0)),
                             Time(0, 59, 60, "", Numeric('+', 1, 0))] :: ValidTime(t) && Passes(t)
    ensures forall t | t in [Time(23, 58, 60, "", Zulu('Z')), Time(23, 59, 60, "", Numeric('+', 1, 0)),
                             Time(15, 59, 60, "", Numeric('+', 8, 0))] :: !ValidTime(t) && !Passes(t)
    ensures ValidTime(Time(12, 0, 27, "87", Numeric('+', 0, 20))) && Passes(Time(12, 0, 27, "87", Numeric('+', 0, 20)))
  {
  }

  /** "23:30:60-00:29" is 23:59:60 UTC and does not pass; "00:28:60-00:29" is 00:57:60 UTC and does. */
  lemma SignLostExample()
    ensures var t := Time(23, 30, 60, "", Numeric('-', 0, 29)); ValidTime(t) && !Passes(t)
    ensures var t := Time(0, 28, 60, "", Numeric('-', 0, 29)); !ValidTime(t) && Passes(t)
  {
  }

  /** All texts the time check accepts: the printed valid times, but for a lost sign. */
  lemma TimesAccepted(s: string)
    ensures (TimeShape(s) && Passes(ReadTime(s))) <==> exists t | Passes(t) :: s == PrintTime(t)
    ensures TimeShape(s) && !SignLost(ReadTime(s)) ==>
      (Passes(ReadTime(s)) <==> exists t | ValidTime(t) :: s == PrintTime(t))
  {
    if TimeShape(s) {
      TimeTextRoundTrip(s);
      if InRanges(ReadTime(s)) { PassesIffValid(ReadTime(s)); }
    }
    if t :| Passes(t) && s == PrintTime(t) { TimeRoundTrip(t); }
    if t :| ValidTime(t) && s == PrintTime(t) { TimeRoundTrip(t); }
  }

  // ---------------------------------------------------------------- dates with times

  const DATE_TIME := Cat(DATE, Cat(Class({'T', 't'}), TIME))

  predicate DateTimeShape(s: string) {
    |s| > 11 && DateShape(s[..10]) && s[10] in {'T', 't'} && TimeShape(s[11..])
  }

  lemma {:induction false} DateTimeShapeIff(s: string)
    ensures Matches(DATE_TIME, s) <==> DateTimeShape(s)
  {
    var mark := Class({'T', 't'});
    if Matches(DATE_TIME, s) {
      var d, rest := CatElim(DATE, Cat(mark, TIME), s);
      var c, t := CatElim(mark, TIME, rest);
      DateShapeIff(d);
      TimeShapeIff(t);
      assert s[..10] == d && s[11..] == t && s[10] == c[0];
    }
    if DateTimeShape(s) {
      DateShapeIff(s[..10]);
      TimeShapeIff(s[11..]);
      CatIntro(mark, TIME, [s[10]], s[11..]);
      CatIntro(DATE, Cat(mark, TIME), s[..10], [s[10]] + s[11..]);
      assert s == s[..10] + ([s[10]] + s[11..]);
    }
  }

  /** A valid date and an acceptable time, with "T" or "t" between them. */
  predicate Prints(s: string, d: Date, mark: string, t: Time) {
    ValidDate(d) && mark in {"T", "t"} && Passes(t) && s == PrintDate(d) + mark + PrintTime(t)
  }

  /** `rfc3339_date_time_check` */
  method DateTimeCheck(value: string) returns (ok: bool)
    ensures ok <==> DateTimeShape(value) && ValidDate(ReadDate(value[..10])) && Passes(ReadTime(value[11..]))
    ensures ok <==> exists d, mark, t :: Prints(value, d, mark, t)
  {
    DateTimeShapeIff(value);
    DateTimesAccepted(value);
    if !DateTimeShape(value) { return false; }
    ok := DateCheck(value[..10]);
    if !ok { return; }
    ok := TimeCheck(value[11..]);
  }

  lemma DateTimesAccepted(s: string)
    ensures (DateTimeShape(s) && ValidDate(ReadDate(s[..10])) && Passes(ReadTime(s[11..]))) <==>
      exists d, mark, t :: Prints(s, d, mark, t)
  {
    if DateTimeShape(s) && ValidDate(ReadDate(s[..10])) && Passes(ReadTime(s[11..])) {
      DateTimePrinted(s);
      assert Prints(s, ReadDate(s[..10]), [s[10]], ReadTime(s[11..]));
    }
    if d, mark, t :| Prints(s, d, mark, t) {
      PrintedDateTime(d, mark, t);
    }
  }

  lemma DateTimePrinted(s: string)
    requires DateTimeShape(s)
    ensures var d, t := ReadDate(s[..10]), ReadTime(s[11..]);
      && d.year < 10000 && d.month < 100 && d.day < 100 && WellShaped(t)
      && [s[10]] in {"T", "t"} && s == PrintDate(d) + [s[10]] + PrintTime(t)
  {
    DateTextRoundTrip(s[..10]);
    TimeTextRoundTrip(s[11..]);
    ThreeParts(s, PrintDate(ReadDate(s[..10])), PrintTime(ReadTime(s[11..])));
  }

  lemma ThreeParts(s: string, d: string, t: string)
    requires |s| > 11 && s[..10] == d && s[11..] == t && s[10] in {'T', 't'}
    ensures s == d + [s[10]] + t && [s[10]] in {"T", "t"}
  {
  }

  lemma PrintedDateTime(d: Date, mark: string, t: Time)
    requires ValidDate(d) && mark in {"T", "t"} && WellShaped(t)
    ensures var s := PrintDate(d) + mark + PrintTime(t);
      DateTimeShape(s) && ReadDate(s[..10]) == d && ReadTime(s[11..]) == t
  {
    DateRoundTrip(d);
    TimeRoundTrip(t);
    PartsAgain(PrintDate(d), mark, PrintTime(t));
  }

  lemma PartsAgain(d: string, mark: string, t: string)
    requires |d| == 10 && |mark| == 1
    ensures var s := d + mark + t; s[..10] == d && s[10] == mark[0] && s[11..] == t
  {
  }
}
