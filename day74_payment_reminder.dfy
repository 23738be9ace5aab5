/**
 * day74_payment_reminder: recurring payments (monthly, yearly or one-off)
 * shown nearest first with the days left, two running totals, a colour
 * badge and a delete button per shown row.
 */
module PaymentReminder {
  import opened Calendar
  import opened Sorting
  import opened PyText

  // ---------------------------------------------------------------------
  // The next due date

  /** One step of the recurrence: a month, a year, or none for any other kind. */
  predicate Recurring(kind: string) {
    kind == "毎月" || kind == "毎年"
  }

  function Step(d: Date, kind: string): (r: Date)
    requires Valid(d)
    ensures Valid(r) && r.day <= d.day
    ensures Recurring(kind) ==> MonthIndex(d) < MonthIndex(r) && LexLess(d, r)
    ensures !Recurring(kind) ==> r == d
  {
    if kind == "毎月" then AddMonths(d, 1)
    else if kind == "毎年" then AddYears(d, 1)
    else d
  }

  /** Months since year 0: the measure the stepping loop decreases. */
  function MonthIndex(d: Date): int {
    d.year * 12 + d.month
  }

  /** The stepping sequence from `d`: its `n`-th date. */
  function Iterate(d: Date, kind: string, n: nat): (r: Date)
    requires Valid(d)
    ensures Valid(r)
    decreases n
  {
    if n == 0 then d else Iterate(Step(d, kind), kind, n - 1)
  }

  /** `calc_next(d, kind)` with `today` given: step until the date is not before today. */
  function NextDate(d: Date, kind: string, today: Date): (r: Date)
    requires Valid(d) && Valid(today)
    ensures Valid(r)
    ensures Recurring(kind) ==> !LexLess(r, today)
    ensures !Recurring(kind) || !LexLess(d, today) ==> r == d
    decreases MonthIndex(today) - MonthIndex(d)
  {
    if Recurring(kind) && LexLess(d, today) then NextDate(Step(d, kind), kind, today) else d
  }

  /** A recurring payment falls due today or later; any other kind is returned as it is. */
  lemma {:induction false} NextDateBounds(d: Date, kind: string, today: Date)
    requires Valid(d) && Valid(today)
    ensures Recurring(kind) ==> !LexLess(NextDate(d, kind, today), today)
    ensures !Recurring(kind) ==> NextDate(d, kind, today) == d
    ensures !LexLess(d, today) ==> NextDate(d, kind, today) == d
    ensures NextDate(d, kind, today).day <= d.day
    decreases MonthIndex(today) - MonthIndex(d)
  {
    if Recurring(kind) && LexLess(d, today) {
      NextDateBounds(Step(d, kind), kind, today);
    }
  }

  /** The result is the first date of the stepping sequence that is not before today. */
  lemma {:induction false} NextDateFirst(d: Date, kind: string, today: Date) returns (n: nat)
    requires Valid(d) && Valid(today) && Recurring(kind)
    ensures NextDate(d, kind, today) == Iterate(d, kind, n)
    ensures !LexLess(Iterate(d, kind, n), today)
    ensures forall m :: 0 <= m < n ==> LexLess(Iterate(d, kind, m), today)
    decreases MonthIndex(today) - MonthIndex(d)
  {
    if !LexLess(d, today) {
      n := 0;
    } else {
      var n' := NextDateFirst(Step(d, kind), kind, today);
      n := n' + 1;
      forall m | 0 <= m < n ensures LexLess(Iterate(d, kind, m), today) {
        if m > 0 {
          assert Iterate(d, kind, m) == Iterate(Step(d, kind), kind, m - 1);
        }
      }
    }
  }

  /** Month steps chain from the clamped date: 31 January, 28 February, then 28 March. */
  lemma ClampingCompounds()
    ensures Iterate(Date(2025, 1, 31), "毎月", 1) == Date(2025, 2, 28)
    ensures Iterate(Date(2025, 1, 31), "毎月", 2) == Date(2025, 3, 28)
  {
    assert Step(Date(2025, 1, 31), "毎月") == Date(2025, 2, 28);
    assert Step(Date(2025, 2, 28), "毎月") == Date(2025, 3, 28);
  }

  /** `calc_next(d, kind)`: the loop as written. */
  method CalcNext(d0: Date, kind: string, today: Date) returns (d: Date)
    requires Valid(d0) && Valid(today)
    ensures d == NextDate(d0, kind, today)
  {
    d := d0;
    while LexLess(d, today)
      invariant Valid(d) && NextDate(d, kind, today) == NextDate(d0, kind, today)
      decreases MonthIndex(today) - MonthIndex(d)
    {
      if kind == "毎月" {
        d := AddMonths(d, 1);
      } else if kind == "毎年" {
        d := AddYears(d, 1);
      } else {
        break;
      }
    }
  }

  // ---------------------------------------------------------------------
  // The list as shown

  datatype Payment = Payment(name: string, amount: int, date: Date, kind: string)

  /** A shown row; `src` is the position of its payment in the stored list. */
  datatype Row = Row(name: string, amount: int, date: Date, days: int, kind: string, src: nat)

  predicate AllValid(rows: seq<Payment>) {
    forall k :: 0 <= k < |rows| ==> Valid(rows[k].date)
  }

  /** The shown row of the `k`-th payment. */
  function RowOf(p: Payment, k: nat, today: Date): (r: Row)
    requires Valid(p.date) && Valid(today)
  {
    var d := NextDate(p.date, p.kind, today);
    Row(p.name, p.amount, d, DiffDays(d, today), p.kind, k)
  }

  /** A recurring payment is never shown overdue; a one-off keeps its own date. */
  lemma RowDays(p: Payment, k: nat, today: Date)
    requires Valid(p.date) && Valid(today)
    ensures Recurring(p.kind) ==> RowOf(p, k, today).days >= 0
    ensures !Recurring(p.kind) ==> RowOf(p, k, today).days == DiffDays(p.date, today)
  {
    NextDateBounds(p.date, p.kind, today);
    LexLessOrdinal(NextDate(p.date, p.kind, today), today);
  }

  /** The rows in stored order. */
  function Unsorted(rows: seq<Payment>, today: Date): (r: seq<Row>)
    requires AllValid(rows) && Valid(today)
    ensures |r| == |rows|
    ensures forall k :: 0 <= k < |r| ==> r[k] == RowOf(rows[k], k, today)
  {
    if rows == [] then []
    else Unsorted(rows[..|rows| - 1], today) + [RowOf(rows[|rows| - 1], |rows| - 1, today)]
  }

  function DaysKey(r: Row): int {
    r.days
  }

  /** `display.sort(key=lambda x: x["days"])`. */
  function Display(rows: seq<Payment>, today: Date): (r: seq<Row>)
    requires AllValid(rows) && Valid(today)
    ensures |r| == |rows| && multiset(r) == multiset(Unsorted(rows, today))
    ensures forall i, j :: 0 <= i < j < |r| ==> r[i].days <= r[j].days
    ensures Stable(Unsorted(rows, today), r, DaysKey)
  {
    SortRows(Unsorted(rows, today))
  }

  /** The sort on any rows. */
  function SortRows(u: seq<Row>): (r: seq<Row>)
    ensures |r| == |u| && multiset(r) == multiset(u)
    ensures forall i, j :: 0 <= i < j < |r| ==> r[i].days <= r[j].days
    ensures Stable(u, r, DaysKey)
  {
    IntLessTotal();
    var r := SortBy(u, DaysKey, IntLess());
    assert forall i, j :: 0 <= i < j < |r| ==> !IntLess()(DaysKey(r[j]), DaysKey(r[i]));
    r
  }

  /** Every shown row is the row of the payment its `src` names. */
  lemma DisplaySource(rows: seq<Payment>, today: Date, i: int)
    requires AllValid(rows) && Valid(today) && 0 <= i < |rows|
    ensures var r := Display(rows, today)[i];
      r.src < |rows| && r == RowOf(rows[r.src], r.src, today)
  {
    var u := Unsorted(rows, today);
    var r := Display(rows, today)[i];
    assert r in multiset(u);
    var k :| 0 <= k < |u| && u[k] == r;
  }

  /** Removing the item at `k` takes exactly one copy of it out. */
  lemma RemoveAt<T>(s: seq<T>, k: nat)
    requires k < |s|
    ensures multiset(s[..k] + s[k + 1..]) == multiset(s) - multiset{s[k]}
  {
    assert s == s[..k] + [s[k]] + s[k + 1..];
    assert multiset(s) == multiset(s[..k]) + multiset{s[k]} + multiset(s[k + 1..]);
  }

  /** The display loop and the sort. */
  method BuildDisplay(rows: seq<Payment>, today: Date) returns (display: seq<Row>)
    requires AllValid(rows) && Valid(today)
    ensures display == Display(rows, today)
  {
    var unsorted: seq<Row> := [];
    for k := 0 to |rows|
      invariant unsorted == Unsorted(rows[..k], today)
    {
      var d := CalcNext(rows[k].date, rows[k].kind, today);
      unsorted := unsorted + [Row(rows[k].name, rows[k].amount, d, DiffDays(d, today), rows[k].kind, k)];
      assert rows[..k + 1][..k] == rows[..k];
    }
    assert rows[..|rows|] == rows;
    display := SortRows(unsorted);
  }

  // ---------------------------------------------------------------------
  // Totals and badge

  /** A row's amount when its days lie in (lo, hi], else 0; no lower bound when `lo` is None. */
  function Amt(r: Row, lo: Option<int>, hi: int): int {
    if (lo.None? || lo.value < r.days) && r.days <= hi then r.amount else 0
  }

  /** The sum of the amounts of the rows whose days lie in (lo, hi]. */
  function SumBetween(rows: seq<Row>, lo: Option<int>, hi: int): int {
    if rows == [] then 0 else SumBetween(rows[..|rows| - 1], lo, hi) + Amt(rows[|rows| - 1], lo, hi)
  }

  /** The two totals split the amounts due within 60 days: this month's bucket takes overdue rows too. */
  lemma {:induction false} TotalsSplit(rows: seq<Row>)
    ensures SumBetween(rows, None, 30) + SumBetween(rows, Some(30), 60) == SumBetween(rows, None, 60)
  {
    if rows != [] {
      TotalsSplit(rows[..|rows| - 1]);
    }
  }

  /** Summing amounts does not depend on the order of the rows. */
  lemma {:induction false} SumBetweenPerm(a: seq<Row>, b: seq<Row>, lo: Option<int>, hi: int)
    requires multiset(a) == multiset(b)
    ensures SumBetween(a, lo, hi) == SumBetween(b, lo, hi)
    decreases |a|
  {
    if a != [] {
      var a', x := a[..|a| - 1], a[|a| - 1];
      assert a == a' + [x];
      assert x in multiset(b);
      var k :| 0 <= k < |b| && b[k] == x;
      var b' := b[..k] + b[k + 1..];
      DropMatching(a, b, k);
      SumBetweenPerm(a', b', lo, hi);
      SumBetweenRemove(b, k, lo, hi);
      assert SumBetween(a, lo, hi) == SumBetween(a', lo, hi) + Amt(x, lo, hi);
    }
  }

  /** Dropping the last item of one and a copy of it from the other keeps two bags equal. */
  lemma DropMatching<T>(a: seq<T>, b: seq<T>, k: int)
    requires a != [] && 0 <= k < |b| && b[k] == a[|a| - 1] && multiset(a) == multiset(b)
    ensures multiset(a[..|a| - 1]) == multiset(b[..k] + b[k + 1..])
  {
    var x, a', b' := a[|a| - 1], a[..|a| - 1], b[..k] + b[k + 1..];
    assert a == a' + [x];
    assert b == b[..k] + [x] + b[k + 1..];
    assert multiset(b) == multiset(b') + multiset{x};
    forall y ensures multiset(a')[y] == multiset(b')[y] {
      assert multiset(a)[y] == multiset(a')[y] + multiset{x}[y];
      assert multiset(b)[y] == multiset(b')[y] + multiset{x}[y];
    }
  }

  lemma {:induction false} SumBetweenRemove(b: seq<Row>, k: int, lo: Option<int>, hi: int)
    requires 0 <= k < |b|
    ensures SumBetween(b, lo, hi) == SumBetween(b[..k] + b[k + 1..], lo, hi) + Amt(b[k], lo, hi)
    decreases |b|
  {
    if k < |b| - 1 {
      var b' := b[..|b| - 1];
      SumBetweenRemove(b', k, lo, hi);
      assert b[..k] + b[k + 1..] == (b'[..k] + b'[k + 1..]) + [b[|b| - 1]];
    } else {
      assert b[..k] + b[k + 1..] == b[..|b| - 1];
    }
  }

  /** The totals loop over the shown rows. */
  method Totals(display: seq<Row>) returns (monthTotal: int, nextMonthTotal: int)
    ensures monthTotal == SumBetween(display, None, 30)
    ensures nextMonthTotal == SumBetween(display, Some(30), 60)
  {
    monthTotal, nextMonthTotal := 0, 0;
    for k := 0 to |display|
      invariant monthTotal == SumBetween(display[..k], None, 30)
      invariant nextMonthTotal == SumBetween(display[..k], Some(30), 60)
    {
      assert display[..k + 1][..k] == display[..k];
      if display[k].days <= 30 {
        monthTotal := monthTotal + display[k].amount;
      }
      if 30 < display[k].days <= 60 {
        nextMonthTotal := nextMonthTotal + display[k].amount;
      }
    }
    assert display[..|display|] == display;
  }

  /** The shown totals are those of the stored payments, whatever the display order. */
  lemma TotalsOfStored(rows: seq<Payment>, today: Date)
    requires AllValid(rows) && Valid(today)
    ensures SumBetween(Display(rows, today), None, 30) == SumBetween(Unsorted(rows, today), None, 30)
    ensures SumBetween(Display(rows, today), Some(30), 60) == SumBetween(Unsorted(rows, today), Some(30), 60)
  {
    SumBetweenPerm(Display(rows, today), Unsorted(rows, today), None, 30);
    SumBetweenPerm(Display(rows, today), Unsorted(rows, today), Some(30), 60);
  }

  /** The colour badge of a row. */
  function Badge(days: int): (b: string)
    ensures b == "🔴" <==> days <= 3
    ensures b == "🟡" <==> 3 < days <= 7
    ensures b == "🟢" <==> days > 7
  {
    if days <= 3 then "🔴" else if days <= 7 then "🟡" else "🟢"
  }

  // ---------------------------------------------------------------------
  // The stored list

  class Reminder {
    var rows: seq<Payment>

    constructor(loaded: seq<Payment>)
      ensures rows == loaded
    {
      rows := loaded;
    }

    /** The add button: a payment with a name is appended; an empty name adds nothing. */
    method Add(name: string, amount: int, date: Date, kind: string)
      modifies this
      ensures name != "" ==> rows == old(rows) + [Payment(name, amount, date, kind)]
      ensures name == "" ==> rows == old(rows)
    {
      if name != "" {
        rows := rows + [Payment(name, amount, date, kind)];
      }
    }

    /** The delete button of shown row `i`, as written: `rows.pop(i)` on the stored order. */
    method DeleteAt(i: nat)
      requires i < |rows|
      modifies this
      ensures rows == old(rows[..i] + rows[i + 1..])
    {
      rows := rows[..i] + rows[i + 1..];
    }

    /** The delete button of shown row `i`, removing the payment that row shows. */
    method DeleteShown(today: Date, i: nat)
      requires AllValid(rows) && Valid(today) && i < |rows|
      modifies this
      ensures var r := old(Display(rows, today))[i];
        r.src < old(|rows|) && rows == old(rows[..r.src] + rows[r.src + 1..])
        && old(rows[r.src]).name == r.name && old(rows[r.src]).amount == r.amount && old(rows[r.src]).kind == r.kind
      ensures multiset(rows) == old(multiset(rows)) - multiset{old(rows[Display(rows, today)[i].src])}
    {
      var display := BuildDisplay(rows, today);
      DisplaySource(rows, today, i);
      var k := display[i].src;
      RemoveAt(rows, k);
      rows := rows[..k] + rows[k + 1..];
    }
  }

  /**
   * Deleting by the shown position on the stored list removes another
   * payment as soon as the display order differs from the stored order:
   * with a payment due in ten days stored before one due today, the
   * button of the first shown row (due today) removes the other one.
   */
  lemma DeleteAtWrongRow()
    ensures var today := Date(2025, 1, 1);
      var rows := [Payment("家賃", 80000, Date(2025, 1, 11), "1回のみ"), Payment("保険", 5000, Date(2025, 1, 1), "1回のみ")];
      Display(rows, today)[0].name == "保険"
      && (rows[..0] + rows[1..]) == [Payment("保険", 5000, Date(2025, 1, 1), "1回のみ")]
  {
    var today := Date(2025, 1, 1);
    var rows := [Payment("家賃", 80000, Date(2025, 1, 11), "1回のみ"), Payment("保険", 5000, Date(2025, 1, 1), "1回のみ")];
    var u := Unsorted(rows, today);
    assert u == [RowOf(rows[0], 0, today), RowOf(rows[1], 1, today)];
    assert u[0].days == 10 && u[1].days == 0 by {
      assert DiffDays(Date(2025, 1, 11), today) == 10;
    }
    SortTwo(u[0], u[1]);
  }

  /** Two rows out of order are swapped. */
  lemma SortTwo(x: Row, y: Row)
    requires y.days < x.days
    ensures SortRows([x, y]) == [y, x]
  {
    IntLessTotal();
    forall k ensures WithKey([y, x], DaysKey, k) == WithKey([x, y], DaysKey, k) {
      assert [y, x][1..] == [x] && [x, y][1..] == [y];
    }
    SortUnique([x, y], [y, x], DaysKey, IntLess());
  }
}
