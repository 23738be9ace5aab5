/**
 * day72_money_log: a one-line household ledger.  A row (date, amount,
 * category, memo) is added when the amount is positive; the page shows
 * today's and this month's totals, this month's total per category, the
 * rows of a chosen month newest first, and a remark banded on the month's
 * total.  Months are keyed "YYYY-MM" with the year as `str(year)`.
 */
module MoneyLog {
  import opened Calendar
  import opened DateText
  import opened PyText
  import opened PyList
  import opened Sorting

  datatype Row = Row(time: string, date: string, amount: int, category: string, memo: string)

  // ---------------------------------------------------------------------
  // Month keys

  /** `month_key(d)`: `f"{d.year}-{d.month:02d}"`. */
  function MonthKey(d: Date): (s: string)
    requires InPyRange(d)
    ensures |s| >= 4 && s[|s| - 3] == '-'
    ensures AllDigits(s[..|s| - 3]) && DigitsValue(s[..|s| - 3]) == d.year
    ensures AllDigits(s[|s| - 2..]) && DigitsValue(s[|s| - 2..]) == d.month
  {
    var y := NatToString(d.year);
    var m := Digits2(d.month);
    Digits2Value(d.month);
    var s := y + "-" + m;
    assert s[..|s| - 3] == y && s[|s| - 2..] == m;
    s
  }

  /** Reads a month key back as (year, month). */
  function ParseMonthKey(s: string): (r: Option<(nat, nat)>)
    ensures r.Some? ==> CountChar(s, '-') == 1
  {
    var parts := Split(s, '-');
    SplitCount(s, '-');
    if |parts| == 2 && parts[0] != [] && AllDigits(parts[0]) && |parts[1]| == 2 && AllDigits(parts[1])
    then Some((DigitsValue(parts[0]), DigitsValue(parts[1])))
    else None
  }

  lemma DigitsNoDash(s: string)
    requires AllDigits(s)
    ensures !ContainsChar(s, '-')
  {
  }

  /** The key holds the year and the month and nothing else. */
  lemma ParseMonthKeyRoundTrip(d: Date)
    requires InPyRange(d)
    ensures ParseMonthKey(MonthKey(d)) == Some((d.year as nat, d.month as nat))
  {
    var y := NatToString(d.year);
    var m := Digits2(d.month);
    Digits2Value(d.month);
    DigitsNoDash(y);
    DigitsNoDash(m);
    SplitTwo(y, m, '-');
    assert MonthKey(d) == y + ['-'] + m;
  }

  /** Two dates share a key exactly when they share year and month. */
  lemma MonthKeySame(a: Date, b: Date)
    requires InPyRange(a) && InPyRange(b)
    ensures MonthKey(a) == MonthKey(b) <==> a.year == b.year && a.month == b.month
  {
    ParseMonthKeyRoundTrip(a);
    ParseMonthKeyRoundTrip(b);
  }

  // ---------------------------------------------------------------------
  // Adding a row

  /** Every stored row has a positive amount and a date in `isoformat()` form. */
  predicate WellFormed(rows: seq<Row>) {
    forall k :: 0 <= k < |rows| ==> rows[k].amount > 0 && FromIso(rows[k].date).Some?
  }

  class Ledger {
    var rows: seq<Row>

    /** The loaded rows (empty when the file is missing or unreadable). */
    constructor(rows0: seq<Row>)
      ensures rows == rows0
    {
      rows := rows0;
    }

    /** "追加する": a positive amount appends a row; zero only warns. */
    method Add(now: string, dt: Date, amount: int, category: string, memo: string) returns (added: bool)
      requires InPyRange(dt)
      modifies this
      ensures added <==> amount > 0
      ensures rows == if added then old(rows) + [Row(now, Iso(dt), amount, category, Strip(memo))] else old(rows)
      ensures WellFormed(old(rows)) ==> WellFormed(rows)
    {
      added := amount > 0;
      if added {
        FromIsoIso(dt);
        rows := rows + [Row(now, Iso(dt), amount, category, Strip(memo))];
      }
    }
  }

  // ---------------------------------------------------------------------
  // Totals

  /** `today_sum`: the amounts of the rows dated `todayKey`. */
  function TodaySum(rows: seq<Row>, todayKey: string): (total: int)
    ensures (forall k :: 0 <= k < |rows| ==> rows[k].date != todayKey) ==> total == 0
    ensures (forall k :: 0 <= k < |rows| ==> rows[k].amount >= 0) ==> total >= 0
  {
    if rows == [] then 0
    else
      var n := |rows| - 1;
      TodaySum(rows[..n], todayKey) + (if rows[n].date == todayKey then rows[n].amount else 0)
  }

  /** Today's total over two runs of rows is the sum of their totals; one row adds its amount when dated today. */
  lemma {:induction false} TodaySumAppend(a: seq<Row>, b: seq<Row>, todayKey: string)
    ensures TodaySum(a + b, todayKey) == TodaySum(a, todayKey) + TodaySum(b, todayKey)
    ensures |b| == 1 ==> TodaySum(b, todayKey) == if b[0].date == todayKey then b[0].amount else 0
    decreases |b|
  {
    if b != [] {
      var n := |b| - 1;
      assert (a + b)[..|a| + n] == a + b[..n];
      TodaySumAppend(a, b[..n], todayKey);
      if |b| == 1 {
        assert b[..n] == [];
      }
    } else {
      assert a + b == a;
    }
  }

  /** The month key of a row whose date reads back, if it does. */
  function RowMonth(r: Row): (m: Option<string>)
    ensures m.Some? <==> FromIso(r.date).Some?
  {
    match FromIso(r.date)
    case None => None
    case Some(d) => Some(MonthKey(d))
  }

  /**
   * `month_sum`: the amounts of the rows in `month`.  The comprehension
   * parses every row's date, so one unreadable date raises (None).
   */
  function MonthSum(rows: seq<Row>, month: string): (r: Option<int>)
    ensures r.Some? <==> forall k :: 0 <= k < |rows| ==> RowMonth(rows[k]).Some?
  {
    MonthSumBy(rows, RowMonth, month)
  }

  /** `month_sum` for any reading `monthOf` of a row's month (None: the reading raises). */
  function MonthSumBy(rows: seq<Row>, monthOf: Row -> Option<string>, month: string): (r: Option<int>)
    ensures r.Some? <==> forall k :: 0 <= k < |rows| ==> monthOf(rows[k]).Some?
  {
    if rows == [] then Some(0)
    else
      var n := |rows| - 1;
      match (MonthSumBy(rows[..n], monthOf, month), monthOf(rows[n]))
      case (Some(s), Some(m)) => Some(s + if m == month then rows[n].amount else 0)
      case _ => assert rows[..n] + [rows[n]] == rows; None
  }

  /** On non-negative amounts, today's total never exceeds this month's. */
  lemma {:induction false} TodayWithinMonth(rows: seq<Row>, today: Date)
    requires InPyRange(today)
    requires forall k :: 0 <= k < |rows| ==> rows[k].amount >= 0
    requires MonthSum(rows, MonthKey(today)).Some?
    ensures TodaySum(rows, Iso(today)) <= MonthSum(rows, MonthKey(today)).value
  {
    if rows != [] {
      var n := |rows| - 1;
      assert MonthSumBy(rows[..n], RowMonth, MonthKey(today)).Some?;
      TodayWithinMonth(rows[..n], today);
      if rows[n].date == Iso(today) {
        FromIsoIso(today);
      }
    }
  }

  // ---------------------------------------------------------------------
  // Per category

  /** `cat_sum[cat] = cat_sum.get(cat, 0) + amount`. */
  function AddTo(c: map<string, int>, cat: string, amount: int): (r: map<string, int>)
    ensures r.Keys == c.Keys + {cat}
    ensures r[cat] == (if cat in c then c[cat] else 0) + amount
    ensures forall x :: x in c && x != cat ==> r[x] == c[x]
  {
    c[cat := (if cat in c then c[cat] else 0) + amount]
  }

  /** `cat_sum`: this month's rows summed per category; unreadable dates are skipped. */
  function CatSums(rows: seq<Row>, month: string): (c: map<string, int>)
    ensures forall cat :: cat in c <==>
      exists k :: 0 <= k < |rows| && RowMonth(rows[k]) == Some(month) && rows[k].category == cat
    ensures forall cat :: cat in c ==> c[cat] == CatTotal(rows, RowMonth, month, cat)
  {
    var c := CatSumsBy(rows, RowMonth, month);
    forall cat ensures cat in c <==>
      exists k :: 0 <= k < |rows| && RowMonth(rows[k]) == Some(month) && rows[k].category == cat
    {
      CatSumsKeys(rows, RowMonth, month, cat);
    }
    forall cat | cat in c ensures c[cat] == CatTotal(rows, RowMonth, month, cat) {
      CatSumsValue(rows, RowMonth, month, cat);
    }
    c
  }

  function CatSumsBy(rows: seq<Row>, monthOf: Row -> Option<string>, month: string): map<string, int> {
    if rows == [] then map[]
    else
      var n := |rows| - 1;
      var c := CatSumsBy(rows[..n], monthOf, month);
      if monthOf(rows[n]) == Some(month) then AddTo(c, rows[n].category, rows[n].amount) else c
  }

  /** A category has a total exactly when some row of the month carries it. */
  lemma {:induction false} CatSumsKeys(rows: seq<Row>, monthOf: Row -> Option<string>, month: string, cat: string)
    ensures cat in CatSumsBy(rows, monthOf, month) <==>
      exists k :: 0 <= k < |rows| && monthOf(rows[k]) == Some(month) && rows[k].category == cat
  {
    if rows != [] {
      var n := |rows| - 1;
      CatSumsKeys(rows[..n], monthOf, month, cat);
      if exists k :: 0 <= k < n && monthOf(rows[..n][k]) == Some(month) && rows[..n][k].category == cat {
        var k :| 0 <= k < n && monthOf(rows[..n][k]) == Some(month) && rows[..n][k].category == cat;
        assert rows[k] == rows[..n][k];
      }
      if exists k :: 0 <= k < |rows| && monthOf(rows[k]) == Some(month) && rows[k].category == cat {
        var k :| 0 <= k < |rows| && monthOf(rows[k]) == Some(month) && rows[k].category == cat;
        if k < n {
          assert rows[..n][k] == rows[k];
        }
      }
    }
  }

  /** A category's total is the sum of that month's amounts in it. */
  function CatTotal(rows: seq<Row>, monthOf: Row -> Option<string>, month: string, cat: string): int {
    if rows == [] then 0
    else
      var n := |rows| - 1;
      CatTotal(rows[..n], monthOf, month, cat) + (if monthOf(rows[n]) == Some(month) && rows[n].category == cat then rows[n].amount else 0)
  }

  /** Each category's entry is the total of the month's amounts in that category. */
  lemma {:induction false} CatSumsValue(rows: seq<Row>, monthOf: Row -> Option<string>, month: string, cat: string)
    requires cat in CatSumsBy(rows, monthOf, month)
    ensures CatSumsBy(rows, monthOf, month)[cat] == CatTotal(rows, monthOf, month, cat)
  {
    var n := |rows| - 1;
    var c := CatSumsBy(rows[..n], monthOf, month);
    if cat in c {
      CatSumsValue(rows[..n], monthOf, month, cat);
    } else {
      CatSumsKeys(rows[..n], monthOf, month, cat);
      CatTotalZero(rows[..n], monthOf, month, cat);
    }
  }

  lemma {:induction false} CatTotalZero(rows: seq<Row>, monthOf: Row -> Option<string>, month: string, cat: string)
    requires forall k :: 0 <= k < |rows| ==> !(monthOf(rows[k]) == Some(month) && rows[k].category == cat)
    ensures CatTotal(rows, monthOf, month, cat) == 0
  {
    if rows != [] {
      var n := |rows| - 1;
      CatTotalZero(rows[..n], monthOf, month, cat);
    }
  }

  /** The loop that fills `cat_sum`. */
  method CategoryTotals(rows: seq<Row>, month: string) returns (c: map<string, int>)
    ensures c == CatSums(rows, month)
  {
    c := map[];
    for k := 0 to |rows|
      invariant c == CatSums(rows[..k], month)
    {
      assert rows[..k + 1][..k] == rows[..k];
      var r := rows[k];
      if RowMonth(r) == Some(month) {
        c := AddTo(c, r.category, r.amount);
      }
    }
    assert rows[..|rows|] == rows;
  }

  /** The sum of a map's values. */
  ghost function Total(m: map<string, int>): int
    decreases |m.Keys|
  {
    if m == map[] then 0
    else
      var k :| k in m;
      m[k] + Total(m - {k})
  }

  /** The total does not depend on which key is taken first. */
  lemma {:induction false} TotalRemove(m: map<string, int>, k: string)
    requires k in m
    ensures Total(m) == m[k] + Total(m - {k})
    decreases |m.Keys|
  {
    var j :| j in m && Total(m) == m[j] + Total(m - {j});
    if j != k {
      TotalRemove(m - {j}, k);
      TotalRemove(m - {k}, j);
      assert m - {j} - {k} == m - {k} - {j};
    }
  }

  lemma TotalUpdate(m: map<string, int>, k: string, v: int)
    ensures Total(m[k := v]) == Total(m) - (if k in m then m[k] else 0) + v
  {
    TotalRemove(m[k := v], k);
    assert m[k := v] - {k} == m - {k};
    if k in m {
      TotalRemove(m, k);
    } else {
      assert m - {k} == m;
    }
  }

  /** When every date reads back, the per-category totals add up to the month's total. */
  lemma {:induction false} CatSumsTotal(rows: seq<Row>, monthOf: Row -> Option<string>, month: string)
    requires MonthSumBy(rows, monthOf, month).Some?
    ensures Total(CatSumsBy(rows, monthOf, month)) == MonthSumBy(rows, monthOf, month).value
  {
    if rows != [] {
      var n := |rows| - 1;
      assert MonthSumBy(rows[..n], monthOf, month).Some?;
      CatSumsTotal(rows[..n], monthOf, month);
      var c := CatSumsBy(rows[..n], monthOf, month);
      var r := rows[n];
      if monthOf(r) == Some(month) {
        TotalUpdate(c, r.category, (if r.category in c then c[r.category] else 0) + r.amount);
      }
    }
  }

  // ---------------------------------------------------------------------
  // The month view

  function DateOf(r: Row): string { r.date }

  predicate InMonth(month: string, r: Row) {
    RowMonth(r) == Some(month)
  }

  function InMonthFn(month: string): Row -> bool {
    r => InMonth(month, r)
  }

  /** The loop that builds `filtered`: the rows whose date reads back and falls in `month`, in order. */
  method MonthRows(rows: seq<Row>, month: string) returns (filtered: seq<Row>)
    ensures filtered == Filter(rows, InMonthFn(month))
  {
    filtered := [];
    for k := 0 to |rows|
      invariant filtered == Filter(rows[..k], InMonthFn(month))
    {
      FilterAppend(rows[..k], [rows[k]], InMonthFn(month));
      assert rows[..k + 1] == rows[..k] + [rows[k]];
      if RowMonth(rows[k]) == Some(month) {
        filtered := filtered + [rows[k]];
      }
    }
    assert rows[..|rows|] == rows;
  }

  /** `filtered.sort(key=date, reverse=True)`: newest first, equal dates in file order. */
  method MonthView(rows: seq<Row>, month: string) returns (view: seq<Row>)
    ensures multiset(view) == multiset(Filter(rows, InMonthFn(month)))
    ensures forall k :: 0 <= k < |view| ==> InMonth(month, view[k])
    ensures SortedBy(view, DateOf, Flip(StrOrder()))
    ensures Stable(Filter(rows, InMonthFn(month)), view, DateOf)
  {
    var filtered := MonthRows(rows, month);
    StrOrderTotal();
    FlipTotal(StrOrder());
    view := SortBy(filtered, DateOf, Flip(StrOrder()));
    forall k | 0 <= k < |view| ensures InMonth(month, view[k]) {
      assert view[k] in multiset(filtered);
    }
  }

  /** A row is in the month view exactly when its date reads back and falls in that month. */
  lemma MonthViewMembers(rows: seq<Row>, month: string, view: seq<Row>, r: Row)
    requires multiset(view) == multiset(Filter(rows, InMonthFn(month)))
    ensures r in view <==> r in rows && InMonth(month, r)
  {
    FilterMultiset(rows, InMonthFn(month), r);
    assert r in view <==> multiset(view)[r] > 0;
  }

  // ---------------------------------------------------------------------
  // The remark

  datatype Remark = StillZero | GoodStart | OnTrack | Growing

  function RemarkRank(r: Remark): nat {
    match r
    case StillZero => 0
    case GoodStart => 1
    case OnTrack => 2
    case Growing => 3
  }

  /** "ひとこと": zero, under 5000 yen, under 20000 yen, or more. */
  function RemarkFor(monthSum: int): (r: Remark)
    ensures r == StillZero <==> monthSum == 0
    ensures r == GoodStart <==> monthSum != 0 && monthSum < 5000
    ensures r == OnTrack <==> 5000 <= monthSum < 20000
    ensures r == Growing <==> 20000 <= monthSum
  {
    if monthSum == 0 then StillZero
    else if monthSum < 5000 then GoodStart
    else if monthSum < 20000 then OnTrack
    else Growing
  }

  /** On non-negative totals a larger month never gets an earlier remark. */
  lemma RemarkMonotone(a: int, b: int)
    requires 0 <= a <= b
    ensures RemarkRank(RemarkFor(a)) <= RemarkRank(RemarkFor(b))
  {
  }
}
