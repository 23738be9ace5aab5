/**
 * Dates as text: `date.isoformat()` (the ISO 8601:2004 section 4.1.2.2
 * calendar date YYYY-MM-DD), `date.fromisoformat` for that form, and
 * `datetime.strptime(s, "%Y-%m-%d")`, whose month and day fields may have
 * one or two digits.
 */
module DateText {
  import opened Calendar
  import opened PyText

  /** Python's supported years. */
  predicate InPyRange(d: Date) {
    Valid(d) && 1 <= d.year <= 9999
  }

  /** `d.isoformat()`: four-digit year, two-digit month and day. */
  function Iso(d: Date): (s: string)
    requires InPyRange(d)
    ensures |s| == 10
  {
    Digits4(d.year) + "-" + Digits2(d.month) + "-" + Digits2(d.day)
  }

  /** `f"{n:02d}"` for 0 <= n < 100. */
  function Digits2(n: int): (s: string)
    requires 0 <= n < 100
  {
    [DigitChar(n / 10), DigitChar(n % 10)]
  }

  /** `f"{n:04d}"` for 0 <= n < 10000. */
  function Digits4(n: int): (s: string)
    requires 0 <= n < 10000
  {
    [DigitChar(n / 1000), DigitChar(n / 100 % 10), DigitChar(n / 10 % 10), DigitChar(n % 10)]
  }

  lemma Digits2Value(n: int)
    requires 0 <= n < 100
    ensures AllDigits(Digits2(n)) && DigitsValue(Digits2(n)) == n
  {
    var s := Digits2(n);
    assert s[..1] == [s[0]] && s[..1][..0] == [];
    assert DigitsValue(s[..1]) == n / 10;
    assert DigitsValue(s) == DigitsValue(s[..1]) * 10 + n % 10;
  }

  lemma Digits4Value(n: int)
    requires 0 <= n < 10000
    ensures AllDigits(Digits4(n)) && DigitsValue(Digits4(n)) == n
  {
    var s := Digits4(n);
    DivTenTwice(n, 100);
    DivTenTwice(n, 10);
    DivTenTwice(n, 1);
    assert s[..1] == [DigitChar(n / 1000)] && s[..1][..0] == [];
    LastDigit(s[..1], n / 1000);
    assert s[..2][..1] == s[..1] && s[..2][1] == DigitChar(n / 100 % 10);
    LastDigit(s[..2], n / 100);
    assert s[..3][..2] == s[..2] && s[..3][2] == DigitChar(n / 10 % 10);
    LastDigit(s[..3], n / 10);
    assert s[..3] == s[..|s| - 1];
    LastDigit(s, n);
  }

  /** `n // (10 * a) == n // a // 10` for the divisors used here. */
  lemma DivTenTwice(n: nat, a: nat)
    requires a == 1 || a == 10 || a == 100
    ensures n / (10 * a) == n / a / 10
  {
    if a == 10 {
      var q, r := n / 100, n % 100;
      assert n / 10 == 10 * q + r / 10;
    } else if a == 100 {
      var q, r := n / 1000, n % 1000;
      assert n / 100 == 10 * q + r / 100;
    }
  }

  /** A digit string whose head is the value of `v // 10` and whose last digit is `v % 10` is worth `v`. */
  lemma LastDigit(s: string, v: nat)
    requires |s| > 0 && AllDigits(s[..|s| - 1]) && DigitsValue(s[..|s| - 1]) == v / 10
    requires s[|s| - 1] == DigitChar(v % 10)
    ensures AllDigits(s) && DigitsValue(s) == v
  {
    assert forall i :: 0 <= i < |s| - 1 ==> s[i] == s[..|s| - 1][i];
  }

  /** The fields of `d.isoformat()` are the digits of the year, month and day. */
  lemma IsoShape(d: Date)
    requires InPyRange(d)
    ensures var s := Iso(d);
      |s| == 10 && s[4] == '-' && s[7] == '-'
      && AllDigits(s[..4]) && AllDigits(s[5..7]) && AllDigits(s[8..])
      && DigitsValue(s[..4]) == d.year && DigitsValue(s[5..7]) == d.month && DigitsValue(s[8..]) == d.day
  {
    var s := Iso(d);
    Digits4Value(d.year);
    Digits2Value(d.month);
    Digits2Value(d.day);
    assert s[..4] == Digits4(d.year) && s[5..7] == Digits2(d.month) && s[8..] == Digits2(d.day);
  }

  /** The date with these fields, if Python accepts it. */
  function MakeDate(y: int, m: int, d: int): (r: Option<Date>)
    ensures r.Some? <==> InPyRange(Date(y, m, d))
    ensures r.Some? ==> r.value == Date(y, m, d)
  {
    if 1 <= y <= 9999 && 1 <= m <= 12 && 1 <= d <= DaysInMonth(y, m) then Some(Date(y, m, d)) else None
  }

  /** `date.fromisoformat(s)` for the basic form: exactly YYYY-MM-DD with ASCII digits. */
  function FromIso(s: string): (r: Option<Date>)
    ensures r.Some? ==> InPyRange(r.value)
  {
    if |s| == 10 && s[4] == '-' && s[7] == '-' && AllDigits(s[..4]) && AllDigits(s[5..7]) && AllDigits(s[8..]) then
      MakeDate(DigitsValue(s[..4]), DigitsValue(s[5..7]), DigitsValue(s[8..]))
    else None
  }

  /** Every Python date's text form reads back as that date. */
  lemma FromIsoIso(d: Date)
    requires InPyRange(d)
    ensures FromIso(Iso(d)) == Some(d)
  {
    IsoShape(d);
  }

  /** Distinct dates have distinct text forms, so dates and their ISO keys correspond one to one. */
  lemma IsoInjective(a: Date, b: Date)
    requires InPyRange(a) && InPyRange(b) && Iso(a) == Iso(b)
    ensures a == b
  {
    FromIsoIso(a);
    FromIsoIso(b);
  }

  /** Two ASCII digits read as a number. */
  function Two(t: string): int
    requires |t| == 2
  {
    if AllDigits(t) then DigitsValue(t) else -1
  }

  /** `HH:MM:SS`, the time part of `isoformat(timespec="seconds")`. */
  predicate TimeText(t: string) {
    |t| == 8 && t[2] == ':' && t[5] == ':'
    && 0 <= Two(t[..2]) < 24 && 0 <= Two(t[3..5]) < 60 && 0 <= Two(t[6..]) < 60
  }

  /**
   * `datetime.fromisoformat(s).date()` for a date alone or a date, one
   * separator character and `HH:MM:SS`.
   */
  function DatetimeDate(s: string): (r: Option<Date>)
    ensures r.Some? ==> InPyRange(r.value)
  {
    if |s| == 10 then FromIso(s)
    else if |s| == 19 && TimeText(s[11..]) then FromIso(s[..10])
    else None
  }

  /** A timestamp written as `isoformat(timespec="seconds")` reads back as its date. */
  lemma DatetimeDateIso(d: Date, sep: char, time: string)
    requires InPyRange(d) && TimeText(time)
    ensures DatetimeDate(Iso(d) + [sep] + time) == Some(d)
  {
    var s := Iso(d) + [sep] + time;
    assert s[..10] == Iso(d) && s[11..] == time;
    FromIsoIso(d);
  }

  // ---------------------------------------------------------------------
  // strptime(s, "%Y-%m-%d")

  /**
   * The month field of `%m` (`1[0-2]|0[1-9]|[1-9]`) followed by '-':
   * the first alternative that lets the '-' follow.  Returns the field's length.
   */
  function MonthField(s: string): (n: nat)
    ensures n <= 2 && n <= |s|
  {
    if |s| >= 3 && s[0] == '1' && '0' <= s[1] <= '2' && s[2] == '-' then 2
    else if |s| >= 3 && s[0] == '0' && '1' <= s[1] <= '9' && s[2] == '-' then 2
    else if |s| >= 2 && '1' <= s[0] <= '9' && s[1] == '-' then 1
    else 0
  }

  /** The day field of `%d` (`3[01]|[12]\d|0[1-9]|[1-9]| [1-9]`): the first alternative that matches. */
  function DayField(s: string): (n: nat)
    ensures n <= 2 && n <= |s|
  {
    if |s| >= 2 && s[0] == '3' && '0' <= s[1] <= '1' then 2
    else if |s| >= 2 && '1' <= s[0] <= '2' && IsDigit(s[1]) then 2
    else if |s| >= 2 && s[0] == '0' && '1' <= s[1] <= '9' then 2
    else if |s| >= 1 && '1' <= s[0] <= '9' then 1
    else if |s| >= 2 && s[0] == ' ' && '1' <= s[1] <= '9' then 2
    else 0
  }

  /** The value of a one- or two-character numeric field, a leading space counting as nothing. */
  function FieldValue(f: string): int {
    if |f| == 1 then DigitValue(f[0])
    else if |f| == 2 then (if f[0] == ' ' then 0 else DigitValue(f[0])) * 10 + DigitValue(f[1])
    else 0
  }

  function DigitValue(c: char): int {
    if IsDigit(c) then c as int - '0' as int else 0
  }

  /**
   * `datetime.strptime(s, "%Y-%m-%d").date()`, None where Python raises
   * ValueError: the pattern must match from the start, leave nothing over,
   * and name a real date.
   */
  function StrptimeYmd(s: string): (r: Option<Date>)
    ensures r.Some? ==> InPyRange(r.value)
  {
    if |s| < 5 || !AllDigits(s[..4]) || s[4] != '-' then None
    else
      var m := MonthField(s[5..]);
      if m == 0 then None
      else
        var rest := s[5 + m + 1..];
        var d := DayField(rest);
        if d == 0 || d != |rest| then None
        else MakeDate(DigitsValue(s[..4]), FieldValue(s[5..5 + m]), FieldValue(rest))
  }

  /** strptime accepts every ISO text form and reads the same date. */
  lemma StrptimeIso(d: Date)
    requires InPyRange(d)
    ensures StrptimeYmd(Iso(d)) == Some(d)
  {
    IsoShape(d);
    StrptimeIsoShape(Iso(d));
  }

  /** strptime on text of the ISO shape reads the same fields as `fromisoformat`. */
  lemma StrptimeIsoShape(s: string)
    requires |s| == 10 && s[4] == '-' && s[7] == '-'
    requires AllDigits(s[..4]) && AllDigits(s[5..7]) && AllDigits(s[8..])
    requires 1 <= DigitsValue(s[5..7]) <= 12 && 1 <= DigitsValue(s[8..]) <= 31
    ensures StrptimeYmd(s) == FromIso(s)
  {
    var mm, dd := s[5..7], s[8..];
    TwoDigitField(mm);
    TwoDigitField(dd);
    assert s[5..][..2] == mm && s[5..][2] == '-';
    MonthFieldTwo(s[5..]);
    assert s[5 + 2 + 1..] == dd;
    DayFieldTwo(dd);
  }

  lemma TwoDigitField(f: string)
    requires |f| == 2 && AllDigits(f)
    ensures FieldValue(f) == DigitsValue(f)
  {
    var h := f[..1];
    assert h == [f[0]] && h[..0] == [];
    assert DigitsValue(h) == f[0] as int - '0' as int;
    assert DigitsValue(f) == DigitsValue(h) * 10 + (f[1] as int - '0' as int);
  }

  lemma MonthFieldTwo(t: string)
    requires |t| >= 3 && AllDigits(t[..2]) && t[2] == '-' && 1 <= DigitsValue(t[..2]) <= 12
    ensures MonthField(t) == 2
  {
    TwoDigitField(t[..2]);
  }

  lemma DayFieldTwo(t: string)
    requires |t| == 2 && AllDigits(t) && 1 <= DigitsValue(t) <= 31
    ensures DayField(t) == 2
  {
    TwoDigitField(t);
  }

  /** `f"{y}-W{w:02d}"` from `d.isocalendar()`: the ISO year and the two-digit week. */
  function WeekId(d: Date): (s: string)
    requires Valid(d)
  {
    var c := IsoCalendar(d);
    IntToString(c.isoYear) + "-W" + Digits2(c.week)
  }

  /** Two dates share a week id exactly when they share the ISO year and week. */
  lemma WeekIdSame(a: Date, b: Date)
    requires Valid(a) && Valid(b)
    ensures WeekId(a) == WeekId(b) <==>
      IsoCalendar(a).isoYear == IsoCalendar(b).isoYear && IsoCalendar(a).week == IsoCalendar(b).week
  {
    var ca, cb := IsoCalendar(a), IsoCalendar(b);
    assert WeekId(a) == IntToString(ca.isoYear) + "-W" + Digits2(ca.week);
    assert WeekId(b) == IntToString(cb.isoYear) + "-W" + Digits2(cb.week);
    if WeekId(a) == WeekId(b) {
      WeekTextInjective(ca.isoYear, ca.week, cb.isoYear, cb.week);
    }
  }

  /** The year and the two-digit week can be read back from the week text. */
  lemma WeekTextInjective(y1: int, w1: int, y2: int, w2: int)
    requires 0 <= w1 < 100 && 0 <= w2 < 100
    requires IntToString(y1) + "-W" + Digits2(w1) == IntToString(y2) + "-W" + Digits2(w2)
    ensures y1 == y2 && w1 == w2
  {
    var s := IntToString(y1) + "-W" + Digits2(w1);
    var t := IntToString(y2) + "-W" + Digits2(w2);
    var n := |s|;
    assert s[n - 2..] == Digits2(w1) && t[n - 2..] == Digits2(w2);
    Digits2Value(w1);
    Digits2Value(w2);
    assert s[..n - 4] == IntToString(y1) && t[..n - 4] == IntToString(y2);
    ParseIntToString(y1);
    ParseIntToString(y2);
  }
}
