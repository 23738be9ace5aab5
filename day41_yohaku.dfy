/**
 * day41_yohaku: a daily "free room" score from 0 to 100 with a note. The
 * score picks a badge; the recent days are summarised by the latest log of
 * each date (average, best, worst) and listed newest first.
 */
module Yohaku {
  import opened Calendar
  import opened DateText
  import opened PyText
  import opened PyList
  import opened Sorting

  datatype Log = Log(id: string, date: string, yohaku: int, note: string, createdAt: string)

  // ---------------------------------------------------------------------
  // Score and badge

  /** `clamp(n, lo, hi)`: `max(lo, min(hi, n))`. */
  function Clamp(n: int, lo: int, hi: int): (r: int)
    ensures r >= lo
    ensures lo <= hi ==> lo <= r <= hi
    ensures lo <= n <= hi ==> r == n
    ensures lo <= hi && n < lo ==> r == lo
    ensures lo <= hi && n > hi ==> r == hi
  {
    var m := if hi < n then hi else n;
    if lo > m then lo else m
  }

  datatype Badge = AlmostNone | Little | Normal | Ample | Plenty

  /** The band's rank, from the fullest day (0) to the roomiest (4). */
  function Rank(b: Badge): nat {
    match b
    case AlmostNone => 0
    case Little => 1
    case Normal => 2
    case Ample => 3
    case Plenty => 4
  }

  function BadgeText(b: Badge): string {
    match b
    case AlmostNone => "🟥 余白ほぼゼロ"
    case Little => "🟧 余白すくなめ"
    case Normal => "🟨 余白ふつう"
    case Ample => "🟩 余白あり"
    case Plenty => "🟦 余白たっぷり"
  }

  /** `yohaku_message(score)`: the score is clamped to 0..100 and then banded. */
  function YohakuMessage(score: int): (b: Badge)
    ensures var s := Clamp(score, 0, 100);
      (b == AlmostNone <==> s <= 10) && (b == Little <==> 10 < s <= 25) && (b == Normal <==> 25 < s <= 45)
      && (b == Ample <==> 45 < s <= 70) && (b == Plenty <==> 70 < s)
  {
    var s := Clamp(score, 0, 100);
    if s <= 10 then AlmostNone
    else if s <= 25 then Little
    else if s <= 45 then Normal
    else if s <= 70 then Ample
    else Plenty
  }

  /** More room never gives a fuller badge. */
  lemma MessageMonotone(a: int, b: int)
    requires a <= b
    ensures Rank(YohakuMessage(a)) <= Rank(YohakuMessage(b))
  {
  }

  /** The "余白+5" button. */
  function PlusFive(score: int): (r: int)
    ensures 0 <= r <= 100
    ensures 0 <= score <= 95 ==> r == score + 5
    ensures 95 <= score ==> r == 100
  {
    Clamp(score + 5, 0, 100)
  }

  // ---------------------------------------------------------------------
  // The recent window

  /** `today - timedelta(days=show_days - 1)`. */
  function Cutoff(today: Date, showDays: int): (c: Date)
    requires Valid(today)
    ensures Valid(c) && DiffDays(today, c) == showDays - 1
  {
    AddDays(today, -(showDays - 1))
  }

  /** A log whose date reads and is not before the cutoff. */
  predicate Recent(x: Log, cutoff: Date)
    requires Valid(cutoff)
  {
    FromIso(x.date).Some? && Ordinal(FromIso(x.date).value) >= Ordinal(cutoff)
  }

  function RecentFn(cutoff: Date): Log -> bool
    requires Valid(cutoff)
  {
    (x: Log) => Recent(x, cutoff)
  }

  /** The filtering loop: logs whose date does not read are skipped, the rest kept if recent. */
  method RecentLogs(logs: seq<Log>, cutoff: Date) returns (out: seq<Log>)
    requires Valid(cutoff)
    ensures out == Filter(logs, RecentFn(cutoff))
    ensures forall k :: 0 <= k < |out| ==> FromIso(out[k].date).Some? && Recent(out[k], cutoff)
  {
    out := [];
    for i := 0 to |logs|
      invariant out == Filter(logs[..i], RecentFn(cutoff))
    {
      FilterAppend(logs[..i], [logs[i]], RecentFn(cutoff));
      assert logs[..i + 1] == logs[..i] + [logs[i]];
      var d := FromIso(logs[i].date);
      if d.None? {
        continue;
      }
      if Ordinal(d.value) >= Ordinal(cutoff) {
        out := out + [logs[i]];
      }
    }
    assert logs[..|logs|] == logs;
  }

  // ---------------------------------------------------------------------
  // The latest log of each date

  function DateCreated(x: Log): (string, string) { (x.date, x.createdAt) }

  function DateCreatedOrder(): ((string, string), (string, string)) -> bool {
    PairOrder(StrOrder(), StrOrder())
  }

  /** `sorted(filtered, key=lambda z: (z.date, z.created_at))`. */
  function ByDateCreated(logs: seq<Log>): (r: seq<Log>)
    ensures multiset(r) == multiset(logs) && |r| == |logs|
    ensures SortedBy(r, DateCreated, DateCreatedOrder())
  {
    StrOrderTotal();
    PairOrderTotal(StrOrder(), StrOrder());
    SortBy(logs, DateCreated, DateCreatedOrder())
  }

  /** The last log of `s` dated `d`: the value `by_date[d]` ends with. */
  function LastWithDate(s: seq<Log>, d: string): (r: Option<nat>)
    ensures r.Some? ==> r.value < |s| && s[r.value].date == d
    ensures r.Some? ==> forall k :: r.value < k < |s| ==> s[k].date != d
    ensures r.None? <==> forall k :: 0 <= k < |s| ==> s[k].date != d
  {
    if s == [] then None
    else if s[|s| - 1].date == d then Some(|s| - 1)
    else LastWithDate(s[..|s| - 1], d)
  }

  /** The dates of `s`, each once, in the order they first appear (a dict's key order). */
  function Dates(s: seq<Log>): (r: seq<string>)
    ensures forall d :: d in r <==> LastWithDate(s, d).Some?
    ensures forall i, j :: 0 <= i < j < |r| ==> r[i] != r[j]
  {
    if s == [] then []
    else
      var n := |s| - 1;
      var t := Dates(s[..n]);
      if s[n].date in t then t else t + [s[n].date]
  }

  /** One log more: its date is now last seen at its position. */
  lemma LastWithDateStep(s: seq<Log>, i: int, d: string)
    requires 0 <= i < |s|
    ensures LastWithDate(s[..i + 1], d) == if s[i].date == d then Some(i) else LastWithDate(s[..i], d)
    ensures Dates(s[..i + 1]) == if s[i].date in Dates(s[..i]) then Dates(s[..i]) else Dates(s[..i]) + [s[i].date]
  {
    assert s[..i + 1][..i] == s[..i];
  }

  /** The log `by_date` holds for each date of `ds`. */
  function Pick(s: seq<Log>, ds: seq<string>): (r: seq<Log>)
    requires forall d :: d in ds ==> LastWithDate(s, d).Some?
    ensures |r| == |ds|
    ensures forall k :: 0 <= k < |r| ==> r[k] == s[LastWithDate(s, ds[k]).value]
  {
    if ds == [] then []
    else Pick(s, ds[..|ds| - 1]) + [s[LastWithDate(s, ds[|ds| - 1]).value]]
  }

  /** `list(by_date.values())`: one log per date, in the dict's key order. */
  function DailyOf(s: seq<Log>): (r: seq<Log>)
    ensures |r| == |Dates(s)|
  {
    Pick(s, Dates(s))
  }

  /** The dict loop: `by_date[x.date] = x` for every log in turn. */
  method ByDate(s: seq<Log>) returns (order: seq<string>, byDate: map<string, Log>)
    ensures order == Dates(s)
    ensures forall d :: d in byDate <==> d in order
    ensures forall d :: d in byDate ==> byDate[d] == s[LastWithDate(s, d).value]
  {
    order, byDate := [], map[];
    for i := 0 to |s|
      invariant order == Dates(s[..i])
      invariant forall d :: d in byDate <==> d in order
      invariant forall d :: d in byDate ==> LastWithDate(s[..i], d).Some? && byDate[d] == s[LastWithDate(s[..i], d).value]
    {
      var x := s[i];
      forall d ensures LastWithDate(s[..i + 1], d) == if x.date == d then Some(i) else LastWithDate(s[..i], d) {
        LastWithDateStep(s, i, d);
      }
      LastWithDateStep(s, i, x.date);
      if x.date !in byDate {
        order := order + [x.date];
      }
      byDate := byDate[x.date := x];
    }
    assert s[..|s|] == s;
  }

  /** `list(by_date.values())` after the dict loop. */
  method LatestPerDay(s: seq<Log>) returns (daily: seq<Log>)
    ensures daily == DailyOf(s)
  {
    var order, byDate := ByDate(s);
    daily := [];
    for k := 0 to |order|
      invariant daily == Pick(s, order[..k])
    {
      assert order[..k + 1][..k] == order[..k];
      daily := daily + [byDate[order[k]]];
    }
    assert order[..|order|] == order;
  }

  /** Each date of the window appears in the daily list, and exactly once. */
  lemma DailyOnePerDate(s: seq<Log>, x: Log)
    requires x in s
    ensures exists k :: 0 <= k < |DailyOf(s)| && DailyOf(s)[k].date == x.date
    ensures forall i, j :: 0 <= i < j < |DailyOf(s)| ==> DailyOf(s)[i].date != DailyOf(s)[j].date
  {
    var r := DailyOf(s);
    var ds := Dates(s);
    var i :| 0 <= i < |s| && s[i] == x;
    assert LastWithDate(s, x.date).Some?;
    var k :| 0 <= k < |ds| && ds[k] == x.date;
    assert r[k].date == x.date;
  }

  /** On logs sorted by (date, created_at), a date's value is its latest log. */
  lemma DailyIsLatest(logs: seq<Log>, k: int, x: Log)
    requires 0 <= k < |DailyOf(ByDateCreated(logs))| && x in logs
    requires x.date == DailyOf(ByDateCreated(logs))[k].date
    ensures !StrLess(DailyOf(ByDateCreated(logs))[k].createdAt, x.createdAt)
  {
    var s := ByDateCreated(logs);
    var ds := Dates(s);
    var j := LastWithDate(s, ds[k]).value;
    assert DailyOf(ByDateCreated(logs))[k] == s[j];
    assert x in multiset(s);
    var i :| 0 <= i < |s| && s[i] == x;
    if i != j {
      assert i < j;
      assert !DateCreatedOrder()(DateCreated(s[j]), DateCreated(s[i]));
    }
    StrLessIrreflexive(x.createdAt);
  }

  // ---------------------------------------------------------------------
  // Average, best and worst

  function SumScores(s: seq<Log>): int {
    if s == [] then 0 else SumScores(s[..|s| - 1]) + s[|s| - 1].yohaku
  }

  /**
   * The mean `total / n` to the nearest tenth, counted in tenths, an exact
   * half going to the even tenth. `round(total / n, 1)` rounds the binary
   * double nearest the mean instead, so on an exact half it can go either
   * way (7/20 gives 0.3 there and 0.4 here); off the halves the two agree.
   */
  function RoundTenths(total: int, n: int): (t: int)
    requires n > 0
    ensures 2 * (if 10 * total >= t * n then 10 * total - t * n else t * n - 10 * total) <= n
  {
    var q := (10 * total) / n;
    var rem := (10 * total) % n;
    if 2 * rem < n then q
    else if 2 * rem > n then q + 1
    else if q % 2 == 0 then q
    else q + 1
  }

  /** `max(daily, key=yohaku)`: the first log with the highest score. */
  function Best(s: seq<Log>): (i: nat)
    requires s != []
    ensures i < |s|
    ensures forall k :: 0 <= k < |s| ==> s[k].yohaku <= s[i].yohaku
    ensures forall k :: 0 <= k < i ==> s[k].yohaku < s[i].yohaku
  {
    if |s| == 1 then 0
    else
      var j := Best(s[..|s| - 1]);
      if s[|s| - 1].yohaku > s[j].yohaku then |s| - 1 else j
  }

  /** `min(daily, key=yohaku)`: the first log with the lowest score. */
  function Worst(s: seq<Log>): (i: nat)
    requires s != []
    ensures i < |s|
    ensures forall k :: 0 <= k < |s| ==> s[i].yohaku <= s[k].yohaku
    ensures forall k :: 0 <= k < i ==> s[i].yohaku < s[k].yohaku
  {
    if |s| == 1 then 0
    else
      var j := Worst(s[..|s| - 1]);
      if s[|s| - 1].yohaku < s[j].yohaku then |s| - 1 else j
  }

  /** The mean of daily scores in 0..100 lies between the worst and the best. */
  lemma {:induction false} SumBetween(s: seq<Log>, lo: int, hi: int)
    requires forall k :: 0 <= k < |s| ==> lo <= s[k].yohaku <= hi
    ensures lo * |s| <= SumScores(s) <= hi * |s|
  {
    if s != [] {
      SumBetween(s[..|s| - 1], lo, hi);
    }
  }

  datatype Stats = Stats(avgTenths: int, best: Log, worst: Log)

  /** The summary of the recent window, None when the window is empty. */
  function Summary(logs: seq<Log>, cutoff: Date): (r: Option<Stats>)
    requires Valid(cutoff)
    ensures r.None? <==> Filter(logs, RecentFn(cutoff)) == []
    ensures r.Some? ==> var daily := DailyOf(ByDateCreated(Filter(logs, RecentFn(cutoff))));
      daily != [] && r.value.best in daily && r.value.worst in daily
      && (forall x :: x in daily ==> r.value.worst.yohaku <= x.yohaku <= r.value.best.yohaku)
    ensures r.Some? ==> var daily := DailyOf(ByDateCreated(Filter(logs, RecentFn(cutoff))));
      r.value.avgTenths == RoundTenths(SumScores(daily), |daily|)
      && r.value.best == daily[Best(daily)] && r.value.worst == daily[Worst(daily)]
  {
    var f := Filter(logs, RecentFn(cutoff));
    if f == [] then None
    else
      var daily := DailyOf(ByDateCreated(f));
      assert f[0] in multiset(ByDateCreated(f));
      DailyOnePerDate(ByDateCreated(f), f[0]);
      var b := Best(daily);
      var w := Worst(daily);
      Some(Stats(RoundTenths(SumScores(daily), |daily|), daily[b], daily[w]))
  }

  /** The rounded average of the daily scores lies between the worst and the best, in tenths. */
  lemma AverageBetween(logs: seq<Log>, cutoff: Date)
    requires Valid(cutoff) && Summary(logs, cutoff).Some?
    ensures var st := Summary(logs, cutoff).value;
      10 * st.worst.yohaku <= st.avgTenths <= 10 * st.best.yohaku
  {
    var st := Summary(logs, cutoff).value;
    var daily := DailyOf(ByDateCreated(Filter(logs, RecentFn(cutoff))));
    var n := |daily|;
    var lo, hi := st.worst.yohaku, st.best.yohaku;
    SumBetween(daily, lo, hi);
    TenthsBetween(SumScores(daily), n, lo, hi, st.avgTenths);
  }

  lemma TenthsBetween(total: int, n: int, lo: int, hi: int, t: int)
    requires n > 0 && lo * n <= total <= hi * n
    requires 2 * (if 10 * total >= t * n then 10 * total - t * n else t * n - 10 * total) <= n
    ensures 10 * lo <= t <= 10 * hi
  {
    assert (10 * lo - 1) * n == 10 * (lo * n) - n;
    LtCancel(10 * lo - 1, t, n);
    assert (10 * hi + 1) * n == 10 * (hi * n) + n;
    LtCancel(t, 10 * hi + 1, n);
  }

  lemma LtCancel(a: int, b: int, n: int)
    requires n > 0 && a * n < b * n
    ensures a < b
  {
  }

  // ---------------------------------------------------------------------
  // The list of recent logs

  /**
   * `sorted(logs, key=(date, created_at), reverse=True)`, the recent ones,
   * the first 80: the newest 80 of the recent window, or all of it.
   */
  function Display(logs: seq<Log>, cutoff: Date): (r: seq<Log>)
    requires Valid(cutoff)
    ensures var w := Filter(logs, RecentFn(cutoff));
      |r| == (if |w| < 80 then |w| else 80)
      && multiset(r) <= multiset(w)
      && (|w| <= 80 ==> multiset(r) == multiset(w))
    ensures forall k :: 0 <= k < |r| ==> Recent(r[k], cutoff)
    ensures SortedBy(r, DateCreated, Flip(DateCreatedOrder()))
    ensures forall x :: x in multiset(Filter(logs, RecentFn(cutoff))) - multiset(r) ==>
      forall k :: 0 <= k < |r| ==> !DateCreatedOrder()(DateCreated(r[k]), DateCreated(x))
  {
    StrOrderTotal();
    PairOrderTotal(StrOrder(), StrOrder());
    FlipTotal(DateCreatedOrder());
    var s := SortBy(logs, DateCreated, Flip(DateCreatedOrder()));
    var f := Filter(s, RecentFn(cutoff));
    FilterSorted(s, RecentFn(cutoff), DateCreated, Flip(DateCreatedOrder()));
    FilterPerm(s, logs, RecentFn(cutoff));
    TakeSorted(Filter(logs, RecentFn(cutoff)), f, DateCreated, Flip(DateCreatedOrder()), 80);
    assert |f| <= 80 ==> Take(f, 80) == f;
    Take(f, 80)
  }

  // ---------------------------------------------------------------------
  // Export

  const Header := "id,date,yohaku,note,created_at"

  function Fields(x: Log): seq<string> {
    [x.id, x.date, IntToString(x.yohaku), x.note, x.createdAt]
  }

  function ExportLines(logs: seq<Log>): (r: seq<string>)
    ensures |r| == |logs| + 1 && r[0] == Header
    ensures forall k :: 0 <= k < |logs| ==> r[k + 1] == CsvLine(Fields(logs[k]))
  {
    if logs == [] then [Header]
    else ExportLines(logs[..|logs| - 1]) + [CsvLine(Fields(logs[|logs| - 1]))]
  }

  /** `to_csv_text(logs)`: the header and a newline when empty, else the lines joined by newlines. */
  function ToCsvText(logs: seq<Log>): (r: string)
    ensures logs == [] ==> r == Header + "\n"
  {
    if logs == [] then Header + "\n" else Join("\n", ExportLines(logs))
  }

  /** Every exported record reads back as its fields, and its score field as its score. */
  lemma ExportRoundTrip(logs: seq<Log>, k: int)
    requires 0 <= k < |logs|
    ensures ParseCsvLine(ExportLines(logs)[k + 1]) == Some(Fields(logs[k]))
    ensures ParseInt(Fields(logs[k])[2]) == Some(logs[k].yohaku)
  {
    CsvLineRoundTrip(Fields(logs[k]));
    ParseIntToString(logs[k].yohaku);
  }

  // ---------------------------------------------------------------------
  // Saving

  class Journal {
    var logs: seq<Log>

    constructor(loaded: seq<Log>)
      ensures logs == loaded
    {
      logs := loaded;
    }

    /** The save button: `YohakuLog.new(today, score, note)` appended. */
    method Save(today: string, score: int, note: string, freshId: string, now: string)
      modifies this
      ensures logs == old(logs) + [Log(freshId, today, score, Strip(note), now)]
    {
      logs := logs + [Log(freshId, today, score, Strip(note), now)];
    }
  }
}
