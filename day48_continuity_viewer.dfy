/**
 * day48_continuity_viewer: a list of the ISO dates on which something was
 * made.  Recording today appends it once; the page shows the days elapsed
 * since the start date (counted from 1), the recorded days, the stopped
 * days, the rate in percent and a message banded on the rate.
 */
module ContinuityViewer {
  import opened Calendar
  import opened DateText

  /** `START_DATE`, day 1. */
  const StartDate: Date := Date(2025, 11, 19)

  /** `total_days = (today - START_DATE).days + 1`. */
  function TotalDays(today: Date): int
    requires Valid(today)
  {
    assert Valid(StartDate);
    DiffDays(today, StartDate) + 1
  }

  /** The start date is day 1 and each following date adds one. */
  lemma TotalDaysCount(today: Date)
    requires Valid(today)
    ensures TotalDays(StartDate) == 1
    ensures TotalDays(Next(today)) == TotalDays(today) + 1
  {
  }

  /** On or after the start, `today` is the date `TotalDays(today) - 1` days after the start. */
  lemma TotalDaysIsDayNumber(today: Date)
    requires Valid(today)
    ensures AddDays(StartDate, TotalDays(today) - 1) == today
  {
    assert Valid(StartDate);
    OrdinalInjective(AddDays(StartDate, TotalDays(today) - 1), today);
  }

  /** `(continued / total) * 100 if total > 0 else 0`. */
  function Rate(continued: int, total: int): (rate: real)
    ensures total > 0 ==> rate * total as real == 100.0 * continued as real
    ensures total <= 0 ==> rate == 0.0
  {
    if total > 0 then
      var q := continued as real / total as real;
      assert q * total as real == continued as real;
      q * 100.0
    else 0.0
  }

  /** With at most `total` days made the rate lies in [0, 100], and it is 100 exactly when none stopped. */
  lemma RateBounds(continued: int, total: int)
    requires 0 <= continued <= total
    ensures 0.0 <= Rate(continued, total) <= 100.0
    ensures Rate(continued, total) == 100.0 <==> continued == total && total > 0
  {
    if total > 0 {
      var r := Rate(continued, total);
      assert r * total as real == 100.0 * continued as real;
    }
  }

  datatype Stats = Stats(total: int, continued: int, stopped: int, rate: real)

  /** The four figures: elapsed, made and stopped days, and the rate in percent. */
  function StatsFor(today: Date, days: seq<string>): (s: Stats)
    requires Valid(today)
    ensures s.total == TotalDays(today) && s.continued == |days|
    ensures s.stopped == s.total - s.continued
    ensures s.rate == Rate(|days|, s.total)
  {
    var total := TotalDays(today);
    Stats(total, |days|, total - |days|, Rate(|days|, total))
  }

  datatype Message = Habit | OverHalf | Continuing | NotZero

  function Rank(m: Message): nat {
    match m
    case NotZero => 0
    case Continuing => 1
    case OverHalf => 2
    case Habit => 3
  }

  /** The message: a rate of at least 80, 50, 30, or less. */
  function MessageFor(rate: real): (m: Message)
    ensures m == Habit <==> rate >= 80.0
    ensures m == OverHalf <==> 50.0 <= rate < 80.0
    ensures m == Continuing <==> 30.0 <= rate < 50.0
    ensures m == NotZero <==> rate < 30.0
  {
    if rate >= 80.0 then Habit
    else if rate >= 50.0 then OverHalf
    else if rate >= 30.0 then Continuing
    else NotZero
  }

  /** A higher rate never gives a lower message. */
  lemma MessageMonotone(a: real, b: real)
    requires a <= b
    ensures Rank(MessageFor(a)) <= Rank(MessageFor(b))
  {
  }

  function MessageText(m: Message): string {
    match m
    case Habit => "これはもう“習慣”。胸張っていい。"
    case OverHalf => "半分以上やってる。十分すぎる。"
    case Continuing => "止まりながらも、続いてる。"
    case NotZero => "それでも、ゼロじゃない。それが大事。"
  }

  /** No date is listed twice. */
  predicate Distinct(days: seq<string>) {
    forall i, j :: 0 <= i < j < |days| ==> days[i] != days[j]
  }

  class DaysLog {
    var days: seq<string>

    /** The loaded list. */
    constructor(days0: seq<string>)
      ensures days == days0
    {
      days := days0;
    }

    /** "今日も作ったと記録する": today's ISO date is appended unless it is already listed. */
    method RecordToday(today: Date) returns (added: bool)
      requires InPyRange(today)
      modifies this
      ensures added <==> Iso(today) !in old(days)
      ensures days == if added then old(days) + [Iso(today)] else old(days)
      ensures Distinct(old(days)) ==> Distinct(days)
    {
      var key := Iso(today);
      added := key !in days;
      if added {
        days := days + [key];
      }
    }

    /** "記録をすべて消す". */
    method ClearAll()
      modifies this
      ensures days == []
    {
      days := [];
    }
  }

  /** Recording twice on one day leaves what recording once leaves. */
  method RecordTwice(log: DaysLog, today: Date)
    requires InPyRange(today)
    modifies log
    ensures log.days == if Iso(today) in old(log.days) then old(log.days) else old(log.days) + [Iso(today)]
  {
    var first := log.RecordToday(today);
    var second := log.RecordToday(today);
    assert !second;
  }
}
