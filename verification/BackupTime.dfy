/** Backup times and their notation 20060102-150405. */
module BackupTime {
  import opened Basics
  import opened Lex
  import opened Decimal

  // ----- the calendar -----

  datatype Civil = Civil(year: nat, month: nat, day: nat, hour: nat, minute: nat, second: nat)

  predicate IsLeap(year: nat) { year % 4 == 0 && (year % 100 != 0 || year % 400 == 0) }

  function DaysInYear(year: nat): nat { if IsLeap(year) then 366 else 365 }

  function DaysIn(year: nat, month: nat): nat {
    if month == 2 then (if IsLeap(year) then 29 else 28)
    else if month == 4 || month == 6 || month == 9 || month == 11 then 30
    else 31
  }

  /** A date and time that exists, in a year of at most four digits. */
  predicate Exists(c: Civil) {
    && c.year <= 9999 && 1 <= c.month <= 12 && 1 <= c.day <= DaysIn(c.year, c.month)
    && c.hour < 24 && c.minute < 60 && c.second < 60
  }

  /** Days from the beginning of year 0 to the beginning of the year. */
  function DaysBeforeYear(year: nat): nat {
    if year == 0 then 0 else DaysBeforeYear(year - 1) + DaysInYear(year - 1)
  }

  /** Days from the beginning of the year to the beginning of the month. */
  function DaysBeforeMonth(year: nat, month: nat): nat {
    if month <= 1 then 0 else DaysBeforeMonth(year, month - 1) + DaysIn(year, month - 1)
  }

  function Day(c: Civil): nat { DaysBeforeYear(c.year) + DaysBeforeMonth(c.year, c.month) + c.day }

  const SECOND := 1_000_000_000

  /** The point in time, in nanoseconds. */
  function Instant(c: Civil): int {
    (((Day(c) * 24 + c.hour) * 60 + c.minute) * 60 + c.second) * SECOND
  }

  /** The calendar is the Gregorian one: a leap day every 4 years, but not every 100, but every 400. */
  lemma {:induction false} GregorianDays(year: nat)
    ensures DaysBeforeYear(year) == 365 * year + (year + 3) / 4 - (year + 99) / 100 + (year + 399) / 400
  {
    if year > 0 {
      var n := year - 1;
      GregorianDays(n);
      EveryFour(n);
      EveryHundred(n);
      EveryFourHundred(n);
      LeapDay(n);
    }
  }

  lemma EveryFour(n: nat)
    ensures (n + 4) / 4 == (n + 3) / 4 + if n % 4 == 0 then 1 else 0
  {
  }

  lemma EveryHundred(n: nat)
    ensures (n + 100) / 100 == (n + 99) / 100 + if n % 100 == 0 then 1 else 0
  {
  }

  lemma EveryFourHundred(n: nat)
    ensures (n + 400) / 400 == (n + 399) / 400 + if n % 400 == 0 then 1 else 0
  {
  }

  lemma LeapDay(n: nat)
    ensures DaysInYear(n) == 365 + (if n % 4 == 0 then 1 else 0) - (if n % 100 == 0 then 1 else 0)
                             + if n % 400 == 0 then 1 else 0
  {
    if n % 400 == 0 {
      ByHundred(n);
    }
    if n % 100 == 0 {
      ByFour(n);
    }
  }

  lemma ByFour(n: nat)
    requires n % 100 == 0
    ensures n % 4 == 0
  {
    assert n == 4 * (25 * (n / 100));
  }

  lemma ByHundred(n: nat)
    requires n % 400 == 0
    ensures n % 100 == 0
  {
    assert n == 100 * (4 * (n / 400));
  }

  lemma {:induction false} YearsAdd(a: nat, b: nat)
    requires a < b
    ensures DaysBeforeYear(a) + DaysInYear(a) <= DaysBeforeYear(b)
  {
    if a < b - 1 {
      YearsAdd(a, b - 1);
    }
  }

  lemma {:induction false} MonthsAdd(year: nat, a: nat, b: nat)
    requires 1 <= a < b
    ensures DaysBeforeMonth(year, a) + DaysIn(year, a) <= DaysBeforeMonth(year, b)
  {
    if a < b - 1 {
      MonthsAdd(year, a, b - 1);
    }
  }

  lemma YearHasTwelveMonths(year: nat)
    ensures DaysBeforeMonth(year, 13) == DaysInYear(year)
  {
    assert DaysBeforeMonth(year, 2) == 31;
    assert DaysBeforeMonth(year, 3) == 31 + DaysIn(year, 2);
    assert DaysBeforeMonth(year, 5) == DaysBeforeMonth(year, 3) + 61;
    assert DaysBeforeMonth(year, 7) == DaysBeforeMonth(year, 5) + 61;
    assert DaysBeforeMonth(year, 9) == DaysBeforeMonth(year, 7) + 62;
    assert DaysBeforeMonth(year, 11) == DaysBeforeMonth(year, 9) + 61;
    assert DaysBeforeMonth(year, 13) == DaysBeforeMonth(year, 11) + 61;
  }

  /** Earlier on the calendar: the first field that differs decides. */
  predicate Earlier(a: Civil, b: Civil) {
    || a.year < b.year
    || (a.year == b.year && (a.month < b.month
                             || (a.month == b.month && (a.day < b.day
                                                        || (a.day == b.day && EarlierInDay(a, b))))))
  }

  predicate EarlierInDay(a: Civil, b: Civil) {
    || a.hour < b.hour
    || (a.hour == b.hour && (a.minute < b.minute || (a.minute == b.minute && a.second < b.second)))
  }

  lemma DayOrder(a: Civil, b: Civil)
    requires Exists(a) && Exists(b)
    requires a.year < b.year || (a.year == b.year && (a.month < b.month || (a.month == b.month && a.day < b.day)))
    ensures Day(a) < Day(b)
  {
    if a.year < b.year {
      YearsAdd(a.year, b.year);
      YearHasTwelveMonths(a.year);
      MonthsAdd(a.year, a.month, 13);
    } else if a.month < b.month {
      MonthsAdd(a.year, a.month, b.month);
    }
  }

  lemma EarlierIsBefore(a: Civil, b: Civil)
    requires Exists(a) && Exists(b) && Earlier(a, b)
    ensures Instant(a) < Instant(b)
  {
    if a.year == b.year && a.month == b.month && a.day == b.day {
      assert Day(a) == Day(b);
    } else {
      DayOrder(a, b);
    }
  }

  /** Calendar order is the order of time. */
  lemma CalendarOrder(a: Civil, b: Civil)
    requires Exists(a) && Exists(b)
    ensures Earlier(a, b) <==> Instant(a) < Instant(b)
    ensures a == b <==> Instant(a) == Instant(b)
  {
    if Earlier(a, b) {
      EarlierIsBefore(a, b);
    } else if Earlier(b, a) {
      EarlierIsBefore(b, a);
    }
  }

  // ----- the notation -----

  /** Two digits. */
  function Pair(n: nat): string
    requires n < 100
  {
    [('0' as int + n / 10) as char, ('0' as int + n % 10) as char]
  }

  function Format(c: Civil): (s: string)
    requires Exists(c)
  {
    Pair(c.year / 100) + (Pair(c.year % 100) + (Pair(c.month) + (Pair(c.day) + ("-" + FormatClock(c)))))
  }

  function FormatClock(c: Civil): string
    requires Exists(c)
  {
    Pair(c.hour) + (Pair(c.minute) + Pair(c.second))
  }

  /** The two-digit number at position i. */
  function PairAt(s: string, i: nat): (r: nat)
    requires i + 1 < |s| && IsDigit(s[i]) && IsDigit(s[i + 1])
    ensures r < 100 && Pair(r) == s[i..i + 2]
  {
    Value(s[i]) * 10 + Value(s[i + 1])
  }

  predicate Shaped(s: string) {
    |s| == 15 && s[8] == '-' && forall i :: 0 <= i < 15 && i != 8 ==> IsDigit(s[i])
  }

  function Fields(s: string): Civil
    requires Shaped(s)
  {
    Civil(PairAt(s, 0) * 100 + PairAt(s, 2), PairAt(s, 4), PairAt(s, 6), PairAt(s, 9), PairAt(s, 11), PairAt(s, 13))
  }

  /** The nanoseconds that up to nine digits after the point stand for; later digits are dropped. */
  function Nanos(s: string, unit: nat): nat
    requires forall i :: 0 <= i < |s| ==> IsDigit(s[i])
  {
    if s == [] then 0 else Value(s[0]) * unit + Nanos(s[1..], unit / 10)
  }

  predicate IsFraction(s: string) {
    |s| >= 2 && (s[0] == '.' || s[0] == ',') && forall i :: 1 <= i < |s| ==> IsDigit(s[i])
  }

  /** The instant that the text stands for. A fraction of a second is accepted although the layout has none. */
  function Parse(s: string): Option<int> {
    if |s| >= 15 && Shaped(s[..15]) && Exists(Fields(s[..15])) then
      if |s| == 15 then Some(Instant(Fields(s[..15])))
      else if IsFraction(s[15..]) then Some(Instant(Fields(s[..15])) + Nanos(s[16..], SECOND / 10))
      else None
    else None
  }

  lemma PairBack(s: string, i: nat, n: nat)
    requires i + 2 <= |s| && n < 100 && s[i..i + 2] == Pair(n)
    ensures IsDigit(s[i]) && IsDigit(s[i + 1]) && PairAt(s, i) == n
  {
    assert s[i] == s[i..i + 2][0] && s[i + 1] == s[i..i + 2][1];
  }

  /** Seven pairs around a dash can be told apart again. */
  lemma Joined(a: string, b: string, c: string, d: string, e: string, f: string, g: string)
    requires |a| == |b| == |c| == |d| == |e| == |f| == |g| == 2
    ensures var s := a + (b + (c + (d + ("-" + (e + (f + g))))));
            && |s| == 15 && s[8] == '-'
            && s[0..2] == a && s[2..4] == b && s[4..6] == c && s[6..8] == d
            && s[9..11] == e && s[11..13] == f && s[13..15] == g
  {
    var t := e + (f + g);
    assert t[0..2] == e && t[2..4] == f && t[4..6] == g;
    var s := a + (b + (c + (d + ("-" + t))));
    assert s[9..11] == t[0..2] && s[11..13] == t[2..4] && s[13..15] == t[4..6];
  }

  lemma FormatFields(c: Civil)
    requires Exists(c)
    ensures Shaped(Format(c)) && Fields(Format(c)) == c
  {
    var s := Format(c);
    hide PairAt;
    Joined(Pair(c.year / 100), Pair(c.year % 100), Pair(c.month), Pair(c.day),
           Pair(c.hour), Pair(c.minute), Pair(c.second));
    hide Pair, PairAt, Format, FormatClock;
    PairBack(s, 0, c.year / 100);
    PairBack(s, 2, c.year % 100);
    PairBack(s, 4, c.month);
    PairBack(s, 6, c.day);
    PairBack(s, 9, c.hour);
    PairBack(s, 11, c.minute);
    PairBack(s, 13, c.second);
  }

  /** Reading back what was written. */
  lemma ParseFormat(c: Civil)
    requires Exists(c)
    ensures Parse(Format(c)) == Some(Instant(c))
  {
    FormatFields(c);
    assert Format(c)[..15] == Format(c);
  }

  /** Only the notation of a time is read as that time, apart from fractions. */
  lemma FormatParse(s: string)
    requires |s| == 15 && Parse(s).Some?
    ensures Exists(Fields(s)) && Format(Fields(s)) == s && Parse(s) == Some(Instant(Fields(s)))
  {
    assert s[..15] == s;
    var c := Fields(s);
    assert c.year / 100 == PairAt(s, 0) && c.year % 100 == PairAt(s, 2);
    hide PairAt, Pair;
    Slices(s);
  }

  lemma Slices(s: string)
    requires |s| == 15 && s[8] == '-'
    ensures s[0..2] + (s[2..4] + (s[4..6] + (s[6..8] + ("-" + (s[9..11] + (s[11..13] + s[13..15])))))) == s
  {
  }

  lemma PairOrder(a: nat, b: nat, x: string, y: string)
    requires a < 100 && b < 100
    ensures Less(Pair(a) + x, Pair(b) + y) <==> a < b || (a == b && Less(x, y))
  {
    assert (Pair(a) + x)[1..] == [Pair(a)[1]] + x && (Pair(b) + y)[1..] == [Pair(b)[1]] + y;
    assert ([Pair(a)[1]] + x)[1..] == x && ([Pair(b)[1]] + y)[1..] == y;
  }

  lemma ClockOrder(a: Civil, b: Civil)
    requires Exists(a) && Exists(b)
    ensures Less(FormatClock(a), FormatClock(b)) <==> EarlierInDay(a, b)
  {
    PairOrder(a.hour, b.hour, Pair(a.minute) + Pair(a.second), Pair(b.minute) + Pair(b.second));
    PairOrder(a.minute, b.minute, Pair(a.second), Pair(b.second));
    PairOrder(a.second, b.second, "", "");
    assert Pair(a.second) + "" == Pair(a.second) && Pair(b.second) + "" == Pair(b.second);
  }

  /** String order of the notation is the order of time. */
  lemma FormatOrder(a: Civil, b: Civil)
    requires Exists(a) && Exists(b)
    ensures Less(Format(a), Format(b)) <==> Instant(a) < Instant(b)
  {
    var a4, b4 := "-" + FormatClock(a), "-" + FormatClock(b);
    var a3, b3 := Pair(a.day) + a4, Pair(b.day) + b4;
    var a2, b2 := Pair(a.month) + a3, Pair(b.month) + b3;
    var a1, b1 := Pair(a.year % 100) + a2, Pair(b.year % 100) + b2;
    PairOrder(a.year / 100, b.year / 100, a1, b1);
    PairOrder(a.year % 100, b.year % 100, a2, b2);
    PairOrder(a.month, b.month, a3, b3);
    PairOrder(a.day, b.day, a4, b4);
    CommonPrefix("-", FormatClock(a), FormatClock(b));
    ClockOrder(a, b);
    CalendarOrder(a, b);
  }
}
