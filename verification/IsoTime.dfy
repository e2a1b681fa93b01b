/** Timestamps as text (crates/persist-metadata/src/store.rs), checked against the Gregorian
    calendar; the form is the one of section 5.6 of RFC 3339. */
module IsoTime {
  import opened Bytes

  datatype Stamp = Stamp(year: int, month: int, day: int, hour: int, minute: int, second: int)

  // ---- The calendar, in closed form ---------------------------------------------------

  predicate IsLeap(year: int)
  {
    (year % 4 == 0 && year % 100 != 0) || year % 400 == 0
  }

  function DaysInYear(year: int): int
  {
    if IsLeap(year) then 366 else 365
  }

  /** Leap years up to and including `year`. */
  function LeapsUpTo(year: int): int
  {
    year / 4 - year / 100 + year / 400
  }

  /** Days from 1970-01-01 to the first of January. */
  function YearStart(year: int): int
  {
    365 * (year - 1970) + LeapsUpTo(year - 1) - LeapsUpTo(1969)
  }

  function DaysInMonth(year: int, month: int): (n: int)
    requires 1 <= month <= 12
    ensures 28 <= n <= 31
  {
    if month == 2 then (if IsLeap(year) then 29 else 28)
    else if month == 4 || month == 6 || month == 9 || month == 11 then 30
    else 31
  }

  function MonthStart(year: int, month: int): (n: int)
    requires 1 <= month <= 13
    ensures n >= 0
    decreases month
  {
    if month == 1 then 0 else MonthStart(year, month - 1) + DaysInMonth(year, month - 1)
  }

  predicate Valid(s: Stamp)
  {
    && s.year >= 1970 && 1 <= s.month <= 12 && 1 <= s.day <= DaysInMonth(s.year, s.month)
    && 0 <= s.hour < 24 && 0 <= s.minute < 60 && 0 <= s.second < 60
  }

  function DayNumber(s: Stamp): int
    requires 1 <= s.month <= 12
  {
    YearStart(s.year) + MonthStart(s.year, s.month) + s.day - 1
  }

  function Seconds(s: Stamp): int
    requires 1 <= s.month <= 12
  {
    DayNumber(s) * 86400 + s.hour * 3600 + s.minute * 60 + s.second
  }

  lemma YearAfterYear(year: int)
    requires year >= 1970
    ensures YearStart(year + 1) == YearStart(year) + DaysInYear(year)
  {
    var q := year / 400;
    var r := year % 400;
    assert year == 400 * q + r;
    QuotientStep(year, 4);
    QuotientStep(year, 100);
    QuotientStep(year, 400);
    Multiples(q, r, year);
  }

  lemma QuotientStep(n: int, k: int)
    requires k == 4 || k == 100 || k == 400
    ensures n / k - (n - 1) / k == if n % k == 0 then 1 else 0
  {
    if k == 4 {
    } else if k == 100 {
    } else {
    }
  }

  lemma Multiples(q: int, r: int, year: int)
    requires year == 400 * q + r && 0 <= r < 400
    ensures year % 100 == r % 100 && year % 4 == r % 4 && year % 400 == r
    ensures r % 100 == 0 ==> r % 4 == 0
  {
    Division(year, 100, 4 * q + r / 100, r % 100);
    Division(year, 4, 100 * q + r / 4, r % 4);
    Division(year, 400, q, r);
    if r % 100 == 0 {
      Division(r, 4, 25 * (r / 100), 0);
    }
  }

  lemma TwelveMonths(year: int)
    ensures MonthStart(year, 13) == DaysInYear(year)
  {
    assert MonthStart(year, 4) == MonthStart(year, 3) + 31;
    assert MonthStart(year, 7) == MonthStart(year, 4) + 91;
    assert MonthStart(year, 10) == MonthStart(year, 7) + 92;
    assert MonthStart(year, 13) == MonthStart(year, 10) + 92;
  }

  // ---- The loops -------------------------------------------------------------------------

  /** Whole years are taken off first, then whole months. The fallback for a month that is never
      found is not needed: the days left always fall in one of the twelve. */
  method Civil(secs: nat) returns (s: Stamp)
    ensures Valid(s) && Seconds(s) == secs
  {
    var days := secs / 86400;
    var timeSecs := secs % 86400;
    var y := 1970;
    var remaining: int := days;
    while true
      invariant y >= 1970 && remaining >= 0 && YearStart(y) + remaining == days
      decreases remaining
    {
      var daysInYear := if IsLeap(y) then 366 else 365;
      if remaining < daysInYear {
        break;
      }
      YearAfterYear(y);
      remaining := remaining - daysInYear;
      y := y + 1;
    }
    var m, d := MonthAndDay(y, remaining);
    s := Stamp(y, m, d, timeSecs / 3600, (timeSecs % 3600) / 60, timeSecs % 60);
    ClockAddsUp(timeSecs);
  }

  method MonthAndDay(y: int, dayOfYear: int) returns (m: int, d: int)
    requires 0 <= dayOfYear < DaysInYear(y)
    ensures 1 <= m <= 12 && 1 <= d <= DaysInMonth(y, m)
    ensures MonthStart(y, m) + d - 1 == dayOfYear
  {
    var remaining := dayOfYear;
    m := 0;
    var i := 0;
    while i < 12
      invariant 0 <= i <= 12 && m == 0
      invariant remaining >= 0 && MonthStart(y, i + 1) + remaining == dayOfYear
    {
      if remaining < DaysInMonth(y, i + 1) {
        m := i + 1;
        break;
      }
      remaining := remaining - DaysInMonth(y, i + 1);
      i := i + 1;
    }
    TwelveMonths(y);
    d := remaining + 1;
  }

  lemma ClockAddsUp(t: int)
    requires 0 <= t < 86400
    ensures (t / 3600) * 3600 + ((t % 3600) / 60) * 60 + t % 60 == t
    ensures 0 <= t / 3600 < 24 && 0 <= (t % 3600) / 60 < 60
  {
    assert t == (t / 3600) * 3600 + t % 3600;
    assert t % 3600 == ((t % 3600) / 60) * 60 + (t % 3600) % 60;
    assert (t % 3600) % 60 == t % 60;
  }

  // ---- The text ----------------------------------------------------------------------------

  function Digit(n: int): char
    requires 0 <= n < 10
  {
    '0' + n as char
  }

  /** Decimal digits, at least `width` of them. */
  function Padded(n: nat, width: nat): string
    decreases n, width
  {
    if n < 10 && width <= 1 then [Digit(n)]
    else Padded(n / 10, if width > 0 then width - 1 else 0) + [Digit(n % 10)]
  }

  function Text(s: Stamp): string
    requires Valid(s)
  {
    Padded(s.year, 4) + ("-" + (Padded(s.month, 2) + ("-" + (Padded(s.day, 2) + ("T" + (Padded(s.hour, 2)
    + (":" + (Padded(s.minute, 2) + (":" + (Padded(s.second, 2) + "Z"))))))))))
  }

  method FormatIso(secs: nat) returns (text: string)
    ensures exists s :: Valid(s) && Seconds(s) == secs && text == Text(s)
  {
    var s := Civil(secs);
    text := Text(s);
  }

  // ---- Order ---------------------------------------------------------------------------------

  /** Byte-wise order of strings. */
  predicate Before(a: string, b: string)
  {
    b != [] && (a == [] || a[0] < b[0] || (a[0] == b[0] && Before(a[1..], b[1..])))
  }

  function Pow10(n: nat): (r: nat)
    ensures r > 0
  {
    if n == 0 then 1 else 10 * Pow10(n - 1)
  }

  lemma OneDigit(a: int, b: int, x: string, y: string)
    requires 0 <= a < 10 && 0 <= b < 10
    ensures Before([Digit(a)] + x, [Digit(b)] + y) <==> a < b || (a == b && Before(x, y))
  {
    assert ([Digit(a)] + x)[1..] == x && ([Digit(b)] + y)[1..] == y;
  }

  /** Numbers padded to the same width compare as numbers, and then by what follows them. */
  lemma {:induction false} PaddedOrder(a: nat, b: nat, width: nat, x: string, y: string)
    requires width > 0 && a < Pow10(width) && b < Pow10(width)
    ensures Before(Padded(a, width) + x, Padded(b, width) + y) <==> a < b || (a == b && Before(x, y))
    decreases width
  {
    hide Before;
    if width == 1 {
      OneDigit(a, b, x, y);
    } else {
      Associate(Padded(a / 10, width - 1), [Digit(a % 10)], x);
      Associate(Padded(b / 10, width - 1), [Digit(b % 10)], y);
      PaddedOrder(a / 10, b / 10, width - 1, [Digit(a % 10)] + x, [Digit(b % 10)] + y);
      OneDigit(a % 10, b % 10, x, y);
    }
  }

  lemma SameMark(c: char, x: string, y: string)
    ensures Before([c] + x, [c] + y) <==> Before(x, y)
  {
    assert ([c] + x)[1..] == x && ([c] + y)[1..] == y;
  }

  /** A field and the mark behind it. */
  lemma FieldOrder(a: nat, b: nat, width: nat, mark: char, x: string, y: string)
    requires width > 0 && a < Pow10(width) && b < Pow10(width)
    ensures Before(Padded(a, width) + ([mark] + x), Padded(b, width) + ([mark] + y))
            <==> a < b || (a == b && Before(x, y))
  {
    PaddedOrder(a, b, width, [mark] + x, [mark] + y);
    SameMark(mark, x, y);
  }

  predicate Earlier(s: Stamp, t: Stamp)
  {
    || s.year < t.year
    || (s.year == t.year && (|| s.month < t.month
    || (s.month == t.month && (|| s.day < t.day
    || (s.day == t.day && (|| s.hour < t.hour
    || (s.hour == t.hour && (|| s.minute < t.minute
    || (s.minute == t.minute && s.second < t.second)))))))))
  }

  lemma TextOrder(s: Stamp, t: Stamp)
    requires Valid(s) && Valid(t) && s.year <= 9999 && t.year <= 9999
    ensures Before(Text(s), Text(t)) <==> Earlier(s, t)
  {
    assert Pow10(2) == 100 && Pow10(4) == 10000 by {
      assert Pow10(3) == 1000;
    }
    hide Before, Padded, Pow10;
    NothingBefore();
    var s5, t5 := Padded(s.second, 2) + "Z", Padded(t.second, 2) + "Z";
    var s4, t4 := Padded(s.minute, 2) + (":" + s5), Padded(t.minute, 2) + (":" + t5);
    var s3, t3 := Padded(s.hour, 2) + (":" + s4), Padded(t.hour, 2) + (":" + t4);
    var s2, t2 := Padded(s.day, 2) + ("T" + s3), Padded(t.day, 2) + ("T" + t3);
    var s1, t1 := Padded(s.month, 2) + ("-" + s2), Padded(t.month, 2) + ("-" + t2);
    PaddedOrder(s.second, t.second, 2, "Z", "Z");
    FieldOrder(s.minute, t.minute, 2, ':', s5, t5);
    FieldOrder(s.hour, t.hour, 2, ':', s4, t4);
    FieldOrder(s.day, t.day, 2, 'T', s3, t3);
    FieldOrder(s.month, t.month, 2, '-', s2, t2);
    FieldOrder(s.year, t.year, 4, '-', s1, t1);
  }

  lemma NothingBefore()
    ensures !Before("Z", "Z")
  {
    assert "Z"[1..] == "";
  }

  lemma {:induction false} YearsGrow(a: int, b: int)
    requires 1970 <= a < b
    ensures YearStart(a) + DaysInYear(a) <= YearStart(b)
    decreases b - a
  {
    YearAfterYear(a);
    if a + 1 < b {
      YearsGrow(a + 1, b);
    }
  }

  lemma {:induction false} MonthsGrow(year: int, a: int, b: int)
    requires 1 <= a < b <= 13
    ensures MonthStart(year, a) + DaysInMonth(year, a) <= MonthStart(year, b)
    decreases b - a
  {
    if a + 1 < b {
      MonthsGrow(year, a, b - 1);
    }
  }

  lemma DaysGrow(s: Stamp, t: Stamp)
    requires Valid(s) && Valid(t)
    requires s.year < t.year || (s.year == t.year && (s.month < t.month || (s.month == t.month && s.day < t.day)))
    ensures DayNumber(s) < DayNumber(t)
  {
    MonthsGrow(s.year, s.month, 13);
    TwelveMonths(s.year);
    if s.year < t.year {
      YearsGrow(s.year, t.year);
    } else if s.month < t.month {
      MonthsGrow(s.year, s.month, t.month);
    }
    hide YearStart, MonthStart;
  }

  lemma EarlierIsFewerSeconds(s: Stamp, t: Stamp)
    requires Valid(s) && Valid(t) && Earlier(s, t)
    ensures Seconds(s) < Seconds(t)
  {
    if s.year != t.year || s.month != t.month || s.day != t.day {
      DaysGrow(s, t);
    }
    hide DayNumber, DaysInMonth;
  }

  lemma OneOrTheOther(s: Stamp, t: Stamp)
    ensures s == t || Earlier(s, t) || Earlier(t, s)
  {
  }

  /** Two stamps of the same second are the same stamp, so the date found is the only valid one. */
  lemma DatesAreUnique(s: Stamp, t: Stamp)
    requires Valid(s) && Valid(t) && Seconds(s) == Seconds(t)
    ensures s == t
  {
    OneOrTheOther(s, t);
    hide Seconds, Earlier, Valid;
    if Earlier(s, t) {
      EarlierIsFewerSeconds(s, t);
    } else if Earlier(t, s) {
      EarlierIsFewerSeconds(t, s);
    }
  }

  /** Up to the year 9999 the texts sort as the times do. */
  lemma StringOrderIsTimeOrder(s: Stamp, t: Stamp)
    requires Valid(s) && Valid(t) && s.year <= 9999 && t.year <= 9999
    ensures Before(Text(s), Text(t)) <==> Seconds(s) < Seconds(t)
  {
    TextOrder(s, t);
    OneOrTheOther(s, t);
    hide Text, Before, Earlier;
    if Earlier(s, t) {
      EarlierIsFewerSeconds(s, t);
    } else if Earlier(t, s) {
      EarlierIsFewerSeconds(t, s);
    }
  }

  /** Where that range ends. */
  lemma FourDigitYears(s: Stamp)
    requires Valid(s)
    ensures s.year <= 9999 <==> Seconds(s) < 253402300800
  {
    var limit := Stamp(10000, 1, 1, 0, 0, 0);
    assert Seconds(limit) == 253402300800;
    OneOrTheOther(s, limit);
    hide Seconds;
    if Earlier(s, limit) {
      EarlierIsFewerSeconds(s, limit);
    } else if Earlier(limit, s) {
      EarlierIsFewerSeconds(limit, s);
    }
  }

  /** One second later the order breaks. */
  lemma OrderBreaksInTheYear10000()
    ensures var s := Stamp(9999, 12, 31, 23, 59, 59);
            var t := Stamp(10000, 1, 1, 0, 0, 0);
            Valid(s) && Valid(t) && Seconds(t) == Seconds(s) + 1 && Before(Text(t), Text(s))
  {
    var s := Stamp(9999, 12, 31, 23, 59, 59);
    var t := Stamp(10000, 1, 1, 0, 0, 0);
    assert MonthStart(9999, 12) == 334 by {
      assert MonthStart(9999, 4) == 90;
      assert MonthStart(9999, 7) == 181;
      assert MonthStart(9999, 10) == 273;
    }
    FirstDigit(9999, 4);
    FirstDigit(10000, 4);
    assert Padded(9999, 4)[0] == '9' && Padded(10000, 4)[0] == '1';
  }

  lemma FirstDigit(n: nat, width: nat)
    requires n == 9999 || n == 10000
    requires width == 4
    ensures Padded(n, width) != [] && Padded(n, width)[0] == if n == 9999 then '9' else '1'
  {
    assert Padded(9, 1) == "9";
    assert Padded(99, 2) == "9" + "9";
    assert Padded(999, 3) == "9" + "9" + "9";
    assert Padded(1, 0) == "1";
    assert Padded(10, 1) == "1" + "0";
    assert Padded(100, 2) == "1" + "0" + "0";
    assert Padded(1000, 3) == "1" + "0" + "0" + "0";
  }
}
