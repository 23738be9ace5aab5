/**
 * day53_morning_switch: a morning-activity timer and a log of finished
 * sessions, with the streak of consecutive logged days and the count of
 * sessions.
 */
module MorningSwitch {
  import opened Calendar
  import opened Sorting
  import opened PyText
  import opened PyNum

  datatype LogEntry = LogEntry(date: Date, mode: string, minutes: int, memo: string, savedAt: string)

  predicate AllValid(logs: seq<LogEntry>) {
    forall k :: 0 <= k < |logs| ==> Valid(logs[k].date)
  }

  /** The ordinal of every logged date, in log order. */
  function Ordinals(logs: seq<LogEntry>): (r: seq<int>)
    requires AllValid(logs)
    ensures |r| == |logs| && forall k :: 0 <= k < |r| ==> r[k] == Ordinal(logs[k].date)
  {
    if logs == [] then [] else Ordinals(logs[..|logs| - 1]) + [Ordinal(logs[|logs| - 1].date)]
  }

  /** `sorted({x["date"] for x in logs})`, as day ordinals. */
  function Days(logs: seq<LogEntry>): (r: seq<int>)
    requires AllValid(logs)
    ensures Increasing(r) && |r| <= |logs|
    ensures forall v :: v in r <==> exists k :: 0 <= k < |logs| && Ordinal(logs[k].date) == v
    ensures |r| == 0 <==> |logs| == 0
  {
    var o := Ordinals(logs);
    assert logs != [] ==> o[0] in SortedSet(o);
    SortedSet(o)
  }

  // ---------------------------------------------------------------------
  // The streak

  /** Two neighbouring days are one calendar day apart. */
  predicate Adjacent(days: seq<int>, k: int)
    requires 0 <= k < |days| - 1
  {
    days[k + 1] - days[k] == 1
  }

  /** The length of the run of consecutive days that ends at the latest day. */
  function Run(days: seq<int>): (n: nat)
    ensures n <= |days| && (days != [] ==> n >= 1)
  {
    if |days| <= 1 then |days|
    else if days[|days| - 1] - days[|days| - 2] == 1 then Run(days[..|days| - 1]) + 1
    else 1
  }

  /** The run is made of consecutive days, and the day before it (if any) is not adjacent. */
  lemma {:induction false} RunMeaning(days: seq<int>)
    requires days != []
    ensures var n := Run(days);
      (forall k :: |days| - n <= k < |days| - 1 ==> Adjacent(days, k))
      && (n < |days| ==> !Adjacent(days, |days| - n - 1))
  {
    if |days| > 1 && days[|days| - 1] - days[|days| - 2] == 1 {
      var d' := days[..|days| - 1];
      RunMeaning(d');
      forall k | |days| - Run(days) <= k < |days| - 1 ensures Adjacent(days, k) {
        if k < |days| - 2 {
          assert Adjacent(d', k);
        }
      }
      if Run(days) < |days| {
        assert !Adjacent(d', |d'| - Run(d') - 1);
      }
    }
  }

  /** Extending a run by one adjacent day. */
  lemma RunStep(days: seq<int>, i: int)
    requires 0 < i < |days| && days[i] - days[i - 1] == 1
    ensures Run(days[..i + 1]) == Run(days[..i]) + 1
  {
    assert days[..i + 1][..i] == days[..i];
  }

  /** `calc_streak(logs)`: the backward loop over the distinct logged days. */
  method CalcStreak(logs: seq<LogEntry>) returns (streak: nat)
    requires AllValid(logs)
    ensures logs == [] ==> streak == 0
    ensures logs != [] ==> streak == Run(Days(logs))
  {
    if logs == [] {
      return 0;
    }
    var days := Days(logs);
    streak := 1;
    var i := |days| - 1;
    assert days[..i + 1] == days;
    while i > 0
      invariant 0 <= i < |days| && streak == |days| - i
      invariant Run(days) == Run(days[..i + 1]) + (|days| - 1 - i)
    {
      if days[i] - days[i - 1] == 1 {
        RunStep(days, i);
        streak := streak + 1;
      } else {
        assert Run(days[..i + 1]) == 1;
        break;
      }
      i := i - 1;
    }
    assert Run(days[..i + 1]) == 1 by {
      if i == 0 { assert |days[..1]| == 1; }
    }
  }

  /** The streak counts distinct dates: a second log on a logged date changes nothing. */
  lemma SameDateCountsOnce(logs: seq<LogEntry>, e: LogEntry, k: int)
    requires AllValid(logs) && 0 <= k < |logs| && e.date == logs[k].date
    ensures Days(logs + [e]) == Days(logs)
  {
    var o := Ordinals(logs);
    assert Ordinals(logs + [e]) == o + [Ordinal(e.date)] by {
      assert (logs + [e])[..|logs|] == logs;
    }
    assert Ordinal(e.date) in SortedSet(o) by { assert o[k] == Ordinal(e.date); }
    InsertPresent(Ordinal(e.date), SortedSet(o));
  }

  lemma {:induction false} InsertPresent(x: int, s: seq<int>)
    requires Increasing(s) && x in s
    ensures InsertUnique(x, s) == s
  {
    if s[0] != x {
      assert x in s[1..] by { var j :| 0 <= j < |s| && s[j] == x; assert j > 0 && s[1..][j - 1] == x; }
      InsertPresent(x, s[1..]);
      assert s == [s[0]] + s[1..];
    }
  }

  // ---------------------------------------------------------------------
  // Session state

  class Switch {
    var logs: seq<LogEntry>
    var running: bool
    var endTime: Option<real>

    constructor(loaded: seq<LogEntry>)
      ensures logs == loaded && !running && endTime.None?
    {
      logs, running, endTime := loaded, false, None;
    }

    /** The record button: one entry per press, with no check for an entry already made today. */
    method Record(today: Date, mode: string, minutes: int, memo: string, now: string)
      modifies this
      ensures logs == old(logs) + [LogEntry(today, mode, minutes, Strip(memo), now)]
      ensures |logs| == old(|logs|) + 1
      ensures running == old(running) && endTime == old(endTime)
    {
      logs := logs + [LogEntry(today, mode, minutes, Strip(memo), now)];
    }

    /** `start_timer()`: the session ends `minutes` minutes from now. */
    method StartTimer(now: real, minutes: int)
      modifies this
      ensures running && endTime == Some(now + (minutes * 60) as real)
      ensures logs == old(logs)
    {
      running, endTime := true, Some(now + (minutes * 60) as real);
    }

    /** `stop_timer()`. */
    method StopTimer()
      modifies this
      ensures !running && endTime.None? && logs == old(logs)
    {
      running, endTime := false, None;
    }

    /**
     * One refresh while running: the whole seconds left, `int(end_time - now)`;
     * at zero or below the timer stops.
     */
    method Refresh(now: real) returns (remaining: int)
      requires running && endTime.Some?
      modifies this
      ensures remaining == Trunc(old(endTime).value - now)
      ensures remaining <= 0 <==> old(endTime).value - now < 1.0
      ensures remaining <= 0 ==> !running && endTime.None?
      ensures remaining > 0 ==> running && endTime == old(endTime)
      ensures logs == old(logs)
    {
      remaining := Trunc(endTime.value - now);
      TruncNonPositive(endTime.value - now);
      if remaining <= 0 {
        StopTimer();
      }
    }
  }
}
