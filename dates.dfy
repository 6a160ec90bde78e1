/**
 * The calendar arithmetic behind the tracker's date handling: which strings
 * `datetime.strptime(s, '%Y-%m-%d')` accepts, how `strftime('%Y-%m-%d')`
 * writes a date, `date + timedelta(days=n)`, and the windows the `month` and
 * `year` filters compute from today's date (app.py:306-319, app1.py:151-164).
 */
module Dates {
  import opened Wrappers
  import opened Text

  /** A proleptic Gregorian date; only `ValidDate` ones exist in Python. */
  datatype Date = Date(year: int, month: int, day: int)

  /** `datetime.MINYEAR` and `datetime.MAXYEAR`. */
  const MinYear: int := 1
  const MaxYear: int := 9999

  predicate IsLeap(y: int)
  {
    y % 4 == 0 && (y % 100 != 0 || y % 400 == 0)
  }

  function DaysInMonth(y: int, m: int): int
  {
    if m == 2 then (if IsLeap(y) then 29 else 28)
    else if m == 4 || m == 6 || m == 9 || m == 11 then 30
    else 31
  }

  /** A real day of the calendar, in any year. */
  predicate InCalendar(d: Date)
  {
    1 <= d.month <= 12 && 1 <= d.day <= DaysInMonth(d.year, d.month)
  }

  /** A day Python's `date` type can represent. */
  predicate ValidDate(d: Date)
  {
    MinYear <= d.year <= MaxYear && InCalendar(d)
  }

  /** Chronological order: `a` is an earlier day than `b`. */
  predicate Before(a: Date, b: Date)
  {
    || a.year < b.year
    || (a.year == b.year && (a.month < b.month || (a.month == b.month && a.day < b.day)))
  }

  function FirstOfNextMonth(y: int, m: int): Date
  {
    if m == 12 then Date(y + 1, 1, 1) else Date(y, m + 1, 1)
  }

  /** The day after `d`: no calendar day lies strictly between the two. */
  function NextDay(d: Date): (r: Date)
    requires InCalendar(d)
    ensures InCalendar(r) && Before(d, r)
    ensures forall e :: InCalendar(e) && Before(d, e) ==> !Before(e, r)
  {
    if d.day < DaysInMonth(d.year, d.month) then Date(d.year, d.month, d.day + 1)
    else FirstOfNextMonth(d.year, d.month)
  }

  /** `d + timedelta(days=n)`, day by day; the year is unbounded here. */
  function AddDays(d: Date, n: nat): (r: Date)
    requires InCalendar(d)
    ensures InCalendar(r)
    ensures n > 0 ==> Before(d, r)
    decreases n
  {
    if n == 0 then d else AddDays(NextDay(d), n - 1)
  }

  lemma {:induction false} AddDaysSplit(d: Date, a: nat, b: nat)
    requires InCalendar(d)
    ensures AddDays(d, a + b) == AddDays(AddDays(d, a), b)
    decreases a
  {
    if a > 0 {
      AddDaysSplit(NextDay(d), a - 1, b);
    }
  }

  lemma {:induction false} AddDaysInMonth(d: Date, n: nat)
    requires InCalendar(d) && d.day + n <= DaysInMonth(d.year, d.month)
    ensures AddDays(d, n) == Date(d.year, d.month, d.day + n)
    decreases n
  {
    if n > 0 {
      AddDaysInMonth(NextDay(d), n - 1);
    }
  }

  /** Running past the end of the month lands in the next month, on the day that is left over. */
  lemma AddDaysIntoNextMonth(d: Date, n: nat)
    requires InCalendar(d)
    requires DaysInMonth(d.year, d.month) < d.day + n
    requires var f := FirstOfNextMonth(d.year, d.month);
             d.day + n <= DaysInMonth(d.year, d.month) + DaysInMonth(f.year, f.month)
    ensures var f := FirstOfNextMonth(d.year, d.month);
            AddDays(d, n) == Date(f.year, f.month, d.day + n - DaysInMonth(d.year, d.month))
  {
    var last := DaysInMonth(d.year, d.month);
    var k := last - d.day;
    var f := FirstOfNextMonth(d.year, d.month);
    AddDaysSplit(d, k, n - k);
    AddDaysInMonth(d, k);
    assert AddDays(Date(d.year, d.month, last), n - k) == AddDays(f, n - k - 1);
    AddDaysInMonth(f, n - k - 1);
  }

  /** Two consecutive months always hold at least 59 days (January and February, or February and March). */
  lemma TwoMonthsAtLeast59(y: int, m: int)
    requires 1 <= m <= 12
    ensures var f := FirstOfNextMonth(y, m);
            DaysInMonth(y, m) + DaysInMonth(f.year, f.month) >= 59
  {
  }

  /**
   * Running `n` days past a day of a month that reaches beyond the next
   * month lands in the month after that, on the day that is left over.
   */
  lemma AddDaysPastNextMonth(d: Date, n: nat)
    requires InCalendar(d)
    requires var next := FirstOfNextMonth(d.year, d.month);
             var span := DaysInMonth(d.year, d.month) + DaysInMonth(next.year, next.month);
             span < d.day + n <= span + 28
    ensures var next := FirstOfNextMonth(d.year, d.month);
            var after := FirstOfNextMonth(next.year, next.month);
            var span := DaysInMonth(d.year, d.month) + DaysInMonth(next.year, next.month);
            AddDays(d, n) == Date(after.year, after.month, d.day + n - span)
  {
    var next := FirstOfNextMonth(d.year, d.month);
    var last := DaysInMonth(d.year, d.month);
    var span := last + DaysInMonth(next.year, next.month);
    var k := span - d.day;
    AddDaysSplit(d, k, n - k);
    AddDaysIntoNextMonth(d, k);
    var lastNext := Date(next.year, next.month, span - last);
    var after := FirstOfNextMonth(next.year, next.month);
    assert AddDays(lastNext, n - k) == AddDays(after, n - k - 1);
    AddDaysInMonth(after, n - k - 1);
  }

  /**
   * Where `today + timedelta(days=32)` lands: in the next month when
   * `today.day + 32` fits in this month and the next, otherwise early in
   * the month after that.
   */
  lemma AddDays32(today: Date)
    requires InCalendar(today)
    ensures var next := FirstOfNextMonth(today.year, today.month);
            var after := FirstOfNextMonth(next.year, next.month);
            var span := DaysInMonth(today.year, today.month) + DaysInMonth(next.year, next.month);
            var later := AddDays(today, 32);
            && (today.day + 32 <= span ==> later == Date(next.year, next.month, today.day + 32 - DaysInMonth(today.year, today.month)))
            && (today.day + 32 > span ==> later == Date(after.year, after.month, today.day + 32 - span))
  {
    TwoMonthsAtLeast59(today.year, today.month);
    var next := FirstOfNextMonth(today.year, today.month);
    if today.day + 32 <= DaysInMonth(today.year, today.month) + DaysInMonth(next.year, next.month) {
      AddDaysIntoNextMonth(today, 32);
    } else {
      AddDaysPastNextMonth(today, 32);
    }
  }

  /** Today plus 32 days lies in a later month, whose 1st comes after today. */
  lemma AddDays32LandsLater(today: Date)
    requires InCalendar(today)
    ensures var later := AddDays(today, 32);
            && 1 <= later.month <= 12 && today.year <= later.year
            && Before(today, Date(later.year, later.month, 1))
  {
    AddDays32(today);
    var next := FirstOfNextMonth(today.year, today.month);
    var after := FirstOfNextMonth(next.year, next.month);
    var later := AddDays(today, 32);
    if today.day + 32 <= DaysInMonth(today.year, today.month) + DaysInMonth(next.year, next.month) {
      assert later.year == next.year && later.month == next.month;
    } else {
      assert later.year == after.year && later.month == after.month;
    }
  }

  /**
   * The `month` filter's window (app.py:308-309): from `today.replace(day=1)`
   * up to `(today + timedelta(days=32)).replace(day=1)`, excluded. `None`
   * where Python raises OverflowError, the 32 days passing 9999-12-31.
   * Today always lies inside the window.
   */
  function MonthWindow(today: Date): (w: Option<(Date, Date)>)
    requires ValidDate(today)
    ensures w.Some? ==> ValidDate(w.value.0) && ValidDate(w.value.1)
    ensures w.Some? ==> !Before(today, w.value.0) && Before(today, w.value.1)
    ensures w.Some? ==> w.value.0.day == 1 && w.value.1.day == 1
    ensures w.Some? ==> w.value.0 == Date(today.year, today.month, 1)
    ensures w.None? <==> AddDays(today, 32).year > MaxYear
  {
    var later := AddDays(today, 32);
    AddDays32LandsLater(today);
    if later.year > MaxYear then None
    else Some((Date(today.year, today.month, 1), Date(later.year, later.month, 1)))
  }

  /**
   * The month window ends on the 1st of the next month exactly when
   * `today.day + 32` stays within this month and the next; otherwise it
   * ends on the 1st of the month after, so the window spans two months.
   */
  lemma MonthWindowEnd(today: Date)
    requires ValidDate(today) && MonthWindow(today).Some?
    ensures var next := FirstOfNextMonth(today.year, today.month);
            var span := DaysInMonth(today.year, today.month) + DaysInMonth(next.year, next.month);
            && (MonthWindow(today).value.1 == next <==> today.day + 32 <= span)
            && (today.day + 32 > span ==> MonthWindow(today).value.1 == FirstOfNextMonth(next.year, next.month))
  {
    AddDays32(today);
  }

  /** Up to the 27th the month window is exactly the calendar month. */
  lemma MonthWindowIsCalendarMonthEarly(today: Date)
    requires ValidDate(today) && MonthWindow(today).Some? && today.day <= 27
    ensures MonthWindow(today).value == (Date(today.year, today.month, 1), FirstOfNextMonth(today.year, today.month))
  {
    TwoMonthsAtLeast59(today.year, today.month);
    MonthWindowEnd(today);
  }

  /** On 31 January 2023 the `month` window runs to 1 March, taking in all of February. */
  lemma MonthWindowOnJanuary31()
    ensures MonthWindow(Date(2023, 1, 31)) == Some((Date(2023, 1, 1), Date(2023, 3, 1)))
  {
    assert !IsLeap(2023);
    AddDays32(Date(2023, 1, 31));
  }

  /**
   * The `year` filter's window (app.py:318-319): January 1 of this year
   * up to January 1 of the next, excluded. `None` where `replace(year=10000)`
   * raises ValueError.
   */
  function YearWindow(today: Date): (w: Option<(Date, Date)>)
    requires ValidDate(today)
    ensures w.Some? ==> ValidDate(w.value.0) && ValidDate(w.value.1)
    ensures w.Some? ==> !Before(today, w.value.0) && Before(today, w.value.1)
    ensures w.Some? ==> forall d :: InCalendar(d) ==> (d.year == today.year <==> !Before(d, w.value.0) && Before(d, w.value.1))
    ensures w.None? <==> today.year == MaxYear
  {
    if today.year + 1 > MaxYear then None
    else Some((Date(today.year, 1, 1), Date(today.year + 1, 1, 1)))
  }

  // ---------------------------------------------------------------------------
  // Writing and reading 'YYYY-MM-DD'

  predicate IsDigit(c: char)
  {
    '0' <= c <= '9'
  }

  predicate AllDigits(s: string)
  {
    forall i :: 0 <= i < |s| ==> IsDigit(s[i])
  }

  function Pow10(n: nat): (p: nat)
    ensures p >= 1
  {
    if n == 0 then 1 else 10 * Pow10(n - 1)
  }

  function DigitChar(n: int): (c: char)
    requires 0 <= n <= 9
    ensures IsDigit(c)
  {
    ('0' as int + n) as char
  }

  /** `n` written in decimal with exactly `width` digits, zero padded on the left (`%04d`, `%02d`). */
  function Digits(n: nat, width: nat): (s: string)
    ensures |s| == width && AllDigits(s)
  {
    if width == 0 then "" else Digits(n / 10, width - 1) + [DigitChar(n % 10)]
  }

  /** The number a run of decimal digits denotes (`int(s)`). */
  function NumberValue(s: string): nat
    requires AllDigits(s)
  {
    if s == [] then 0 else 10 * NumberValue(s[..|s| - 1]) + (s[|s| - 1] as int - '0' as int)
  }

  lemma {:induction false} DigitsValue(n: nat, width: nat)
    requires n < Pow10(width)
    ensures NumberValue(Digits(n, width)) == n
  {
    if width > 0 {
      DigitsValue(n / 10, width - 1);
      var s := Digits(n, width);
      assert s[..|s| - 1] == Digits(n / 10, width - 1);
    }
  }

  lemma {:induction false} ValueDigits(s: string)
    requires AllDigits(s)
    ensures NumberValue(s) < Pow10(|s|) && Digits(NumberValue(s), |s|) == s
  {
    if s != [] {
      var init := s[..|s| - 1];
      ValueDigits(init);
      var n := NumberValue(s);
      assert n / 10 == NumberValue(init);
      assert s == init + [s[|s| - 1]];
    }
  }

  /** Equal-width zero-padded numerals sort as the numbers they denote. */
  lemma {:induction false} DigitsOrder(n: nat, m: nat, width: nat)
    requires n < Pow10(width) && m < Pow10(width)
    ensures LexLess(Digits(n, width), Digits(m, width)) <==> n < m
    ensures Digits(n, width) == Digits(m, width) <==> n == m
  {
    if width > 0 {
      DigitsOrder(n / 10, m / 10, width - 1);
      var a, b := Digits(n / 10, width - 1), Digits(m / 10, width - 1);
      var x, y := [DigitChar(n % 10)], [DigitChar(m % 10)];
      LexConcat(a, x, b, y);
      assert LexLess(x, y) <==> n % 10 < m % 10 by {
        assert x[1..] == [] && y[1..] == [];
      }
      if a + x == b + y {
        assert a == (a + x)[..width - 1] && b == (b + y)[..width - 1];
        assert x[0] == (a + x)[width - 1];
      }
    }
  }

  /** `date.strftime('%Y-%m-%d')`. */
  function Format(d: Date): (s: string)
    requires ValidDate(d)
    ensures CanonicalShape(s)
  {
    Digits(d.year, 4) + ("-" + (Digits(d.month, 2) + ("-" + Digits(d.day, 2))))
  }

  /** The ten characters strftime writes for a date, one by one. */
  lemma FormatChars(d: Date)
    requires ValidDate(d)
    ensures Format(d) == [DigitChar(d.year / 1000), DigitChar(d.year / 100 % 10), DigitChar(d.year / 10 % 10),
                          DigitChar(d.year % 10), '-', DigitChar(d.month / 10), DigitChar(d.month % 10), '-',
                          DigitChar(d.day / 10), DigitChar(d.day % 10)]
  {
    TwoDigits(d.month);
    TwoDigits(d.day);
    var y := d.year;
    assert Digits(y, 4) == Digits(y / 10, 3) + [DigitChar(y % 10)];
    assert Digits(y / 10, 3) == Digits(y / 100, 2) + [DigitChar(y / 10 % 10)];
    TwoDigits(y / 100);
    assert y / 100 / 10 == y / 1000 && y / 100 % 10 == y / 100 % 10;
  }

  /** Ten characters `DDDD-DD-DD` with `D` a decimal digit. */
  predicate CanonicalShape(s: string)
  {
    && |s| == 10
    && AllDigits(s[..4]) && s[4] == '-' && AllDigits(s[5..7]) && s[7] == '-' && AllDigits(s[8..])
  }

  /**
   * Canonical date strings compare, as TEXT, in chronological order, and
   * distinct dates have distinct strings; this is what makes SQL's
   * `t.date >= ? AND t.date < ?` a date-range test.
   */
  lemma FormatOrder(a: Date, b: Date)
    requires ValidDate(a) && ValidDate(b)
    ensures LexLess(Format(a), Format(b)) <==> Before(a, b)
    ensures Format(a) == Format(b) <==> a == b
  {
    var ya, yb := Digits(a.year, 4), Digits(b.year, 4);
    var ma, mb := Digits(a.month, 2), Digits(b.month, 2);
    var da, db := Digits(a.day, 2), Digits(b.day, 2);
    DigitsOrder(a.year, b.year, 4);
    DigitsOrder(a.month, b.month, 2);
    DigitsOrder(a.day, b.day, 2);
    LexConcat(ma, "-" + da, mb, "-" + db);
    LexConcat("-", ma + ("-" + da), "-", mb + ("-" + db));
    LexConcat("-", da, "-", db);
    LexConcat(ya, "-" + (ma + ("-" + da)), yb, "-" + (mb + ("-" + db)));
    assert !LexLess("-", "-") by { LexIrreflexive("-"); }
    LexIrreflexive(Format(a));
    LexTrichotomy(Format(a), Format(b));
  }

  /** The `%m-` part of the pattern: `1[0-2]|0[1-9]|[1-9]` followed by `-`; gives the month and what follows the dash. */
  function MonthThenDash(t: string): Option<(int, string)>
  {
    if |t| >= 3 && ((t[0] == '1' && '0' <= t[1] <= '2') || (t[0] == '0' && '1' <= t[1] <= '9')) && t[2] == '-' then
      Some((NumberValue(t[..2]), t[3..]))
    else if |t| >= 2 && '1' <= t[0] <= '9' && t[1] == '-' then
      Some((NumberValue(t[..1]), t[2..]))
    else None
  }

  /** The `%d` part: the first of `3[01]|[12]\d|0[1-9]|[1-9]| [1-9]` that matches; gives the day and the unmatched rest. */
  function DayField(u: string): Option<(int, string)>
  {
    if |u| >= 2 && u[0] == '3' && '0' <= u[1] <= '1' then Some((NumberValue(u[..2]), u[2..]))
    else if |u| >= 2 && '1' <= u[0] <= '2' && IsDigit(u[1]) then Some((NumberValue(u[..2]), u[2..]))
    else if |u| >= 2 && u[0] == '0' && '1' <= u[1] <= '9' then Some((NumberValue(u[..2]), u[2..]))
    else if |u| >= 1 && '1' <= u[0] <= '9' then Some((NumberValue(u[..1]), u[1..]))
    else if |u| >= 2 && u[0] == ' ' && '1' <= u[1] <= '9' then Some((NumberValue(u[1..2]), u[2..]))
    else None
  }

  /**
   * `datetime.strptime(s, '%Y-%m-%d')`: `None` where it raises ValueError.
   * Four digits of year, a dash, the month, a dash, the day, nothing left
   * over ("unconverted data remains"), and a real date of years 1 to 9999.
   * Like strptime it also takes unpadded months and days (`2024-1-5`) and
   * a space-padded day (`2024-01- 5`).
   */
  function ParseYmd(s: string): (r: Option<Date>)
    ensures r.Some? ==> ValidDate(r.value)
  {
    if |s| < 5 || !AllDigits(s[..4]) || s[4] != '-' then None
    else
      match MonthThenDash(s[5..])
      case None => None
      case Some((month, afterMonth)) =>
        match DayField(afterMonth)
        case None => None
        case Some((day, rest)) =>
          var d := Date(NumberValue(s[..4]), month, day);
          if rest != [] || !ValidDate(d) then None else Some(d)
  }

  lemma TwoDigits(n: nat)
    requires n < 100
    ensures Digits(n, 2) == [DigitChar(n / 10), DigitChar(n % 10)]
  {
    var t := n / 10;
    assert t < 10 && t / 10 == 0 && t % 10 == t;
    assert Digits(t, 1) == Digits(0, 0) + [DigitChar(t)];
    assert Digits(n, 2) == Digits(t, 1) + [DigitChar(n % 10)];
  }

  lemma MonthThenDashOfDigits(m: int, rest: string)
    requires 1 <= m <= 12
    ensures MonthThenDash(Digits(m, 2) + ("-" + rest)) == Some((m, rest))
  {
    var x := Digits(m, 2);
    TwoDigits(m);
    DigitsValue(m, 2);
    if m < 10 {
      assert m / 10 == 0 && m % 10 == m;
      assert x[0] == '0' && '1' <= x[1] <= '9';
    } else {
      assert m / 10 == 1 && m % 10 == m - 10;
      assert x[0] == '1' && '0' <= x[1] <= '2';
    }
    TwoCharMonth(x, rest);
  }

  /** A two-character month `01`..`12` before the dash is read by the first alternative. */
  lemma TwoCharMonth(x: string, rest: string)
    requires |x| == 2 && AllDigits(x)
    requires (x[0] == '1' && '0' <= x[1] <= '2') || (x[0] == '0' && '1' <= x[1] <= '9')
    ensures MonthThenDash(x + ("-" + rest)) == Some((NumberValue(x), rest))
  {
    var t := x + ("-" + rest);
    assert t[0] == x[0] && t[1] == x[1] && t[2] == '-';
    assert t[..2] == x && t[3..] == rest;
  }

  lemma DayFieldOfDigits(day: int)
    requires 1 <= day <= 31
    ensures DayField(Digits(day, 2)) == Some((day, ""))
  {
    var u := Digits(day, 2);
    TwoDigits(day);
    DigitsValue(day, 2);
    assert u[..2] == u && u[2..] == [];
  }

  /** Every date strftime writes, strptime reads back as the same date. */
  lemma ParseFormat(d: Date)
    requires ValidDate(d)
    ensures ParseYmd(Format(d)) == Some(d)
  {
    var s := Format(d);
    var ys, ms, ds := Digits(d.year, 4), Digits(d.month, 2), Digits(d.day, 2);
    assert s[..4] == ys;
    assert s[5..] == ms + ("-" + ds);
    DigitsValue(d.year, 4);
    MonthThenDashOfDigits(d.month, ds);
    DayFieldOfDigits(d.day);
  }

  /** The date a canonically shaped string names, read field by field. */
  function ShapeDate(s: string): Date
    requires CanonicalShape(s)
  {
    Date(NumberValue(s[..4]), NumberValue(s[5..7]), NumberValue(s[8..]))
  }

  /**
   * On `DDDD-DD-DD` strings strptime accepts exactly the real calendar
   * dates, and what it accepts is the canonical spelling of that date.
   */
  lemma ParseCanonical(s: string)
    requires CanonicalShape(s)
    ensures ParseYmd(s).Some? <==> ValidDate(ShapeDate(s))
    ensures ParseYmd(s).Some? ==> ParseYmd(s).value == ShapeDate(s) && Format(ShapeDate(s)) == s
  {
    var d := ShapeDate(s);
    ValueDigits(s[..4]);
    ValueDigits(s[5..7]);
    ValueDigits(s[8..]);
    var t := s[5..];
    assert t[..2] == s[5..7] && t[3..] == s[8..];
    var u := s[8..];
    assert u[..2] == u && u[2..] == [];
    if ValidDate(d) {
      assert s == s[..4] + ("-" + (s[5..7] + ("-" + s[8..])));
      ParseFormat(d);
    }
  }

  /** strptime also accepts `2024-1-5`, which is not the canonical spelling of 5 January 2024. */
  lemma ParseAcceptsUnpadded()
    ensures ParseYmd("2024-1-5") == Some(Date(2024, 1, 5))
    ensures !CanonicalShape("2024-1-5")
  {
    var s := "2024-1-5";
    assert s[..4] == "2024" && s[5..] == "1-5";
    assert NumberValue("2") == 2 by { assert "2"[..0] == ""; }
    assert NumberValue("20") == 20 by { assert "20"[..1] == "2"; }
    assert NumberValue("202") == 202 by { assert "202"[..2] == "20"; }
    assert NumberValue("2024") == 2024 by { assert "2024"[..3] == "202"; }
    assert NumberValue("1") == 1 by { assert "1"[..0] == ""; }
    assert NumberValue("5") == 5 by { assert "5"[..0] == ""; }
    assert MonthThenDash("1-5") == Some((1, "5")) by {
      assert "1-5"[..1] == "1" && "1-5"[2..] == "5";
    }
    assert DayField("5") == Some((5, "")) by {
      assert "5"[..1] == "5" && "5"[1..] == "";
    }
  }
}
