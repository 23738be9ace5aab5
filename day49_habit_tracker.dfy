/**
 * The habit tracker: a daily done/rest/miss log per habit, with the current
 * streak, the longest streak and the completion rate over a window of days.
 * The log maps an ISO date key to a map from habit id to status.
 */
module HabitTracker {
  import opened Calendar
  import opened DateText
  import opened PyText
  import opened PyJson
  import PyList

  const Done := "done"
  const Rest := "rest"
  const Miss := "miss"

  datatype Habit = Habit(id: string, name: string, createdAt: string)

  type Logs = map<string, map<string, string>>

  /** `logs.get(day, {}).get(habit_id)`. */
  function StatusOn(logs: Logs, day: string, habit: string): Option<string> {
    if day in logs && habit in logs[day] then Some(logs[day][habit]) else None
  }

  predicate DoneOn(logs: Logs, d: Date, habit: string)
    requires InPyRange(d)
  {
    StatusOn(logs, Iso(d), habit) == Some(Done)
  }

  // ---------------------------------------------------------------------
  // daterange

  /** `daterange(end, days)`: the last max(1, days) days up to and including `end`. */
  function DateRange(end: Date, days: int): (r: seq<Date>)
    requires Valid(end)
    ensures |r| == if days < 1 then 1 else days
    ensures forall i :: 0 <= i < |r| ==> Valid(r[i]) && Ordinal(r[i]) == Ordinal(end) - (|r| - 1 - i)
  {
    var n := if days < 1 then 1 else days;
    var start := AddDays(end, -(n - 1));
    seq(n, i requires 0 <= i < n => AddDays(start, i))
  }

  /** Consecutive ascending days whose last element is `end`. */
  lemma DateRangeShape(end: Date, days: int)
    requires Valid(end)
    ensures var r := DateRange(end, days);
      r[|r| - 1] == end
      && forall i :: 0 <= i < |r| - 1 ==> r[i + 1] == Next(r[i])
  {
    var r := DateRange(end, days);
    OrdinalInjective(r[|r| - 1], end);
    forall i | 0 <= i < |r| - 1 ensures r[i + 1] == Next(r[i]) {
      NextByOrdinal(r[i], r[i + 1]);
    }
  }

  /** The valid date one ordinal after `a` is the day after `a`. */
  lemma NextByOrdinal(a: Date, b: Date)
    requires Valid(a) && Valid(b) && Ordinal(b) == Ordinal(a) + 1
    ensures b == Next(a)
  {
    OrdinalInjective(b, Next(a));
  }

  // ---------------------------------------------------------------------
  // Current streak

  /**
   * The number of consecutive "done" days ending at `d`.  Python raises
   * OverflowError when stepping below 0001-01-01; the count stops there.
   */
  function Streak(logs: Logs, habit: string, d: Date): (n: nat)
    requires InPyRange(d)
    ensures n == 0 <==> !DoneOn(logs, d, habit)
    ensures n <= Ordinal(d)
    decreases Ordinal(d)
  {
    FirstDayOrdinal(d);
    if !DoneOn(logs, d, habit) then 0
    else if d == Date(1, 1, 1) then 1
    else 1 + Streak(logs, habit, Prev(d))
  }

  lemma FirstDayOrdinal(d: Date)
    requires InPyRange(d)
    ensures Ordinal(d) >= 1
    ensures d != Date(1, 1, 1) ==> InPyRange(Prev(d))
  {
    YearStartMonotone(1, d.year);
  }

  /** `calc_streak_for_habit`: walks back from `up_to` while the status is "done". */
  method CalcStreak(logs: Logs, habit: string, upTo: Date) returns (streak: nat)
    requires InPyRange(upTo)
    ensures streak == Streak(logs, habit, upTo)
  {
    streak := 0;
    var cur := upTo;
    FirstDayOrdinal(cur);
    while true
      invariant InPyRange(cur)
      invariant streak + Streak(logs, habit, cur) == Streak(logs, habit, upTo)
      decreases Ordinal(cur)
    {
      FirstDayOrdinal(cur);
      if DoneOn(logs, cur, habit) {
        streak := streak + 1;
        if cur == Date(1, 1, 1) {
          return;
        }
        cur := Prev(cur);
        continue;
      }
      break;
    }
  }

  /**
   * The streak is k exactly when the k days ending at `d` are done and the
   * day before them is not (or lies before 0001-01-01).
   */
  lemma {:induction false} StreakMeaning(logs: Logs, habit: string, d: Date)
    requires InPyRange(d)
    ensures var k := Streak(logs, habit, d);
      (forall e :: InPyRange(e) && Ordinal(d) - k < Ordinal(e) <= Ordinal(d) ==> DoneOn(logs, e, habit))
      && (forall e :: InPyRange(e) && Ordinal(e) == Ordinal(d) - k ==> !DoneOn(logs, e, habit))
    decreases Ordinal(d)
  {
    var k := Streak(logs, habit, d);
    FirstDayOrdinal(d);
    if DoneOn(logs, d, habit) {
      if d == Date(1, 1, 1) {
        forall e | InPyRange(e) ensures Ordinal(e) != Ordinal(d) - k {
          FirstDayOrdinal(e);
        }
        forall e | InPyRange(e) && Ordinal(d) - k < Ordinal(e) <= Ordinal(d) ensures DoneOn(logs, e, habit) {
          OrdinalInjective(e, d);
        }
      } else {
        var p := Prev(d);
        StreakMeaning(logs, habit, p);
        forall e | InPyRange(e) && Ordinal(e) == Ordinal(d) ensures DoneOn(logs, e, habit) {
          OrdinalInjective(e, d);
        }
      }
    } else {
      forall e | InPyRange(e) && Ordinal(e) == Ordinal(d) ensures !DoneOn(logs, e, habit) {
        OrdinalInjective(e, d);
      }
    }
  }

  /** The streak is 0 exactly when `up_to` itself is not done. */
  lemma StreakZero(logs: Logs, habit: string, d: Date)
    requires InPyRange(d)
    ensures Streak(logs, habit, d) == 0 <==> !DoneOn(logs, d, habit)
  {
  }

  // ---------------------------------------------------------------------
  // Longest streak and rate over a window

  /** Whether each day of the window is "done". */
  function DoneFlags(logs: Logs, habit: string, dates: seq<Date>): (f: seq<bool>)
    requires forall i :: 0 <= i < |dates| ==> InPyRange(dates[i])
    ensures |f| == |dates|
    ensures forall i :: 0 <= i < |dates| ==> f[i] == DoneOn(logs, dates[i], habit)
  {
    seq(|dates|, i requires 0 <= i < |dates| => DoneOn(logs, dates[i], habit))
  }

  /** The flag of day `i` is the loop's test `logs.get(d.isoformat(), {}).get(habit) == "done"`. */
  lemma DoneFlagAt(logs: Logs, habit: string, dates: seq<Date>, i: int)
    requires forall i :: 0 <= i < |dates| ==> InPyRange(dates[i])
    requires 0 <= i < |dates|
    ensures DoneFlags(logs, habit, dates)[i] == (StatusOn(logs, Iso(dates[i]), habit) == Some(Done))
  {
  }

  predicate AllTrue(f: seq<bool>, i: int, j: int)
    requires 0 <= i <= j <= |f|
  {
    forall k :: i <= k < j ==> f[k]
  }

  /** A stretch of `len` done days starts at `i`. */
  predicate RunAt(f: seq<bool>, i: int, len: nat) {
    0 <= i && i + len <= |f| && AllTrue(f, i, i + len)
  }

  /** The number of trues at the end of `f`. */
  function TrailingRun(f: seq<bool>): (n: nat)
    ensures n <= |f| && AllTrue(f, |f| - n, |f|)
    ensures n < |f| ==> !f[|f| - 1 - n]
  {
    if f == [] || !f[|f| - 1] then 0 else TrailingRun(f[..|f| - 1]) + 1
  }

  /** The longest run of trues, prefix by prefix. */
  function LongestRun(f: seq<bool>): (n: nat)
    ensures TrailingRun(f) <= n <= |f|
  {
    if f == [] then 0
    else
      var m := LongestRun(f[..|f| - 1]);
      var t := TrailingRun(f);
      if t > m then t else m
  }

  /** `calc_max_streak_for_habit`. */
  method CalcMaxStreak(logs: Logs, habit: string, dates: seq<Date>) returns (maxStreak: nat)
    requires forall i :: 0 <= i < |dates| ==> InPyRange(dates[i])
    ensures maxStreak == LongestRun(DoneFlags(logs, habit, dates))
  {
    ghost var f := DoneFlags(logs, habit, dates);
    maxStreak := 0;
    var cur := 0;
    for i := 0 to |dates|
      invariant cur == TrailingRun(f[..i])
      invariant maxStreak == LongestRun(f[..i])
    {
      var isDone := StatusOn(logs, Iso(dates[i]), habit) == Some(Done);
      DoneFlagAt(logs, habit, dates, i);
      RunStepFrom(f, i, isDone, cur, maxStreak);
      if isDone {
        cur := cur + 1;
        maxStreak := if maxStreak > cur then maxStreak else cur;
      } else {
        cur := 0;
      }
    }
    assert f[..|dates|] == f;
  }

  /** How both runs change when the window grows by one day. */
  lemma RunStep(f: seq<bool>, i: int)
    requires 0 <= i < |f|
    ensures TrailingRun(f[..i + 1]) == if f[i] then TrailingRun(f[..i]) + 1 else 0
    ensures LongestRun(f[..i + 1]) == if TrailingRun(f[..i + 1]) > LongestRun(f[..i]) then TrailingRun(f[..i + 1]) else LongestRun(f[..i])
  {
    assert f[..i + 1][..i] == f[..i];
  }

  /** One loop step of `calc_max_streak_for_habit`, from the current and best run so far. */
  lemma RunStepFrom(f: seq<bool>, i: int, isDone: bool, cur: int, best: int)
    requires 0 <= i < |f| && isDone == f[i]
    requires cur == TrailingRun(f[..i]) && best == LongestRun(f[..i])
    ensures TrailingRun(f[..i + 1]) == if isDone then cur + 1 else 0
    ensures LongestRun(f[..i + 1]) == if isDone && best <= cur + 1 then cur + 1 else best
  {
    RunStep(f, i);
  }

  /**
   * The longest run is a run (some stretch of that length is all done) and
   * no run is longer; it lies in [0, len(dates)].
   */
  lemma {:induction false} LongestRunMeaning(f: seq<bool>)
    ensures LongestRun(f) <= |f|
    ensures exists i :: RunAt(f, i, LongestRun(f))
    ensures forall i, j :: 0 <= i <= j <= |f| && AllTrue(f, i, j) ==> j - i <= LongestRun(f)
  {
    if f == [] {
      assert RunAt(f, 0, 0);
    } else {
      var g := f[..|f| - 1];
      LongestRunMeaning(g);
      var m, t := LongestRun(g), TrailingRun(f);
      if t > m {
        assert RunAt(f, |f| - t, t);
      } else {
        var i :| RunAt(g, i, m);
        assert RunAt(f, i, m);
      }
      forall i, j | 0 <= i <= j <= |f| && AllTrue(f, i, j) ensures j - i <= LongestRun(f) {
        if j == |f| {
          RunBoundedByTrailing(f, i);
        } else {
          assert AllTrue(g, i, j);
        }
      }
    }
  }

  lemma {:induction false} RunBoundedByTrailing(f: seq<bool>, i: int)
    requires 0 <= i <= |f| && AllTrue(f, i, |f|)
    ensures |f| - i <= TrailingRun(f)
  {
    if i < |f| {
      var g := f[..|f| - 1];
      assert AllTrue(g, i, |g|);
      RunBoundedByTrailing(g, i);
    }
  }

  /** The longest streak is 0 exactly when no day of the window is done. */
  lemma LongestRunZero(f: seq<bool>)
    ensures LongestRun(f) == 0 <==> forall i :: 0 <= i < |f| ==> !f[i]
  {
    if i :| 0 <= i < |f| && f[i] {
      LongestRunCovers(f, i, i + 1);
    } else {
      LongestRunHasDone(f);
    }
  }

  /** A positive longest run has a done day in it. */
  lemma LongestRunHasDone(f: seq<bool>)
    ensures LongestRun(f) > 0 ==> exists i :: 0 <= i < |f| && f[i]
  {
    LongestRunMeaning(f);
    var i :| RunAt(f, i, LongestRun(f));
    if LongestRun(f) > 0 {
      assert f[i];
    }
  }

  /** Every stretch of trues is at most the longest run. */
  lemma LongestRunCovers(f: seq<bool>, i: int, j: int)
    requires 0 <= i <= j <= |f| && AllTrue(f, i, j)
    ensures j - i <= LongestRun(f)
  {
    LongestRunMeaning(f);
  }

  /** The number of done days in the window. */
  function CountDone(f: seq<bool>): (n: nat)
    ensures n <= |f|
  {
    if f == [] then 0 else CountDone(f[..|f| - 1]) + (if f[|f| - 1] then 1 else 0)
  }

  /** One more flag adds one to the count when it is set. */
  lemma CountDoneStep(f: seq<bool>, i: int)
    requires 0 <= i < |f|
    ensures CountDone(f[..i + 1]) == CountDone(f[..i]) + (if f[i] then 1 else 0)
  {
    assert f[..i + 1][..i] == f[..i];
  }

  /** `done / total * 100`, or 0.0 for an empty window, in exact arithmetic. */
  function Percent(part: nat, total: nat): (r: real)
    requires part <= total
    ensures 0.0 <= r <= 100.0
    ensures total > 0 && part == total ==> r == 100.0
    ensures part == 0 ==> r == 0.0
  {
    if total > 0 then PercentBounds(part, total); part as real / total as real * 100.0 else 0.0
  }

  /** `calc_rate_for_habit`: the share of done days in the window, as a percentage. */
  method CalcRate(logs: Logs, habit: string, dates: seq<Date>) returns (rate: real)
    requires forall i :: 0 <= i < |dates| ==> InPyRange(dates[i])
    ensures rate == Percent(CountDone(DoneFlags(logs, habit, dates)), |dates|)
  {
    ghost var f := DoneFlags(logs, habit, dates);
    var done := 0;
    var total := |dates|;
    for i := 0 to |dates|
      invariant done == CountDone(f[..i])
    {
      CountDoneStep(f, i);
      var isDone := StatusOn(logs, Iso(dates[i]), habit) == Some(Done);
      DoneFlagAt(logs, habit, dates, i);
      if isDone {
        done := done + 1;
      }
    }
    assert f[..|dates|] == f;
    assert done == CountDone(f) && total == |dates|;
    rate := if total > 0 then done as real / total as real * 100.0 else 0.0;
  }

  lemma PercentBounds(part: int, total: int)
    requires 0 <= part <= total && total > 0
    ensures 0.0 <= part as real / total as real * 100.0 <= 100.0
    ensures part == total ==> part as real / total as real * 100.0 == 100.0
  {
    var q := part as real / total as real;
    assert q * total as real == part as real;
    assert 0.0 <= q <= 1.0;
  }

  /**
   * Over the window `daterange(today, n)`, the longest streak is at least
   * the current streak, capped at the window length.
   */
  lemma MaxStreakCoversStreak(logs: Logs, habit: string, today: Date, n: int)
    requires InPyRange(today)
    requires var r := DateRange(today, n); forall i :: 0 <= i < |r| ==> InPyRange(r[i])
    ensures var r := DateRange(today, n);
      var s := Streak(logs, habit, today);
      LongestRun(DoneFlags(logs, habit, r)) >= (if s < |r| then s else |r|)
  {
    var r := DateRange(today, n);
    var f := DoneFlags(logs, habit, r);
    var s := Streak(logs, habit, today);
    var k := if s < |r| then s else |r|;
    StreakMeaning(logs, habit, today);
    assert forall i :: |r| - k <= i < |r| ==> f[i];
    assert RunAt(f, |r| - k, k);
    LongestRunMeaning(f);
  }

  // ---------------------------------------------------------------------
  // Stored state

  /** `logs.setdefault(day, {})[habit] = status`. */
  function Upsert(logs: Logs, day: string, habit: string, status: string): (r: Logs)
    ensures StatusOn(r, day, habit) == Some(status)
    ensures forall d, h :: (d != day || h != habit) ==> StatusOn(r, d, h) == StatusOn(logs, d, h)
    ensures r.Keys == logs.Keys + {day}
  {
    var inner := if day in logs then logs[day] else map[];
    logs[day := inner[habit := status]]
  }

  function OtherThan(hid: string): Habit -> bool {
    (h: Habit) => h.id != hid
  }

  /** `[h for h in habits if h.id != hid]`: every other habit, as often as it was listed. */
  function RemoveHabit(habits: seq<Habit>, hid: string): (r: seq<Habit>)
    ensures forall h :: h in r <==> h in habits && h.id != hid
    ensures forall h :: multiset(r)[h] == if h.id != hid then multiset(habits)[h] else 0
    ensures |r| <= |habits|
  {
    forall h ensures multiset(PyList.Filter(habits, OtherThan(hid)))[h] == if h.id != hid then multiset(habits)[h] else 0 {
      PyList.FilterMultiset(habits, OtherThan(hid), h);
    }
    PyList.Filter(habits, OtherThan(hid))
  }

  /** The remaining habits keep their order: removing from two lists gives what is left of each, one after the other. */
  lemma RemoveHabitAppend(a: seq<Habit>, b: seq<Habit>, hid: string)
    ensures RemoveHabit(a + b, hid) == RemoveHabit(a, hid) + RemoveHabit(b, hid)
  {
    PyList.FilterAppend(a, b, OtherThan(hid));
  }

  /** `load_logs`: keeps the date keys whose value is an object, and makes ids and statuses strings. */
  function LoadLogs(raw: Json): (r: Logs)
    requires raw.JObject? ==> forall k :: k in raw.fields && raw.fields[k].JObject? ==>
      forall h :: h in raw.fields[k].fields ==> IsScalar(raw.fields[k].fields[h])
    ensures !raw.JObject? ==> r == map[]
    ensures raw.JObject? ==> forall k :: k in r <==> k in raw.fields && raw.fields[k].JObject?
    ensures raw.JObject? ==> forall k, h :: k in r && h in raw.fields[k].fields ==>
      h in r[k] && r[k][h] == Str(raw.fields[k].fields[h])
    ensures forall k :: k in r ==> r[k].Keys == raw.fields[k].fields.Keys
  {
    if !raw.JObject? then map[]
    else
      map k | k in raw.fields && raw.fields[k].JObject? ::
        map h | h in raw.fields[k].fields :: Str(raw.fields[k].fields[h])
  }

  class Tracker {
    var habits: seq<Habit>
    var logs: Logs

    constructor(habits0: seq<Habit>, logs0: Logs)
      ensures habits == habits0 && logs == logs0
    {
      habits := habits0;
      logs := logs0;
    }

    /** The done/rest/miss buttons: overwrite today's status of one habit. */
    method Record(today: Date, habit: string, status: string)
      requires InPyRange(today)
      requires status == Done || status == Rest || status == Miss
      modifies this
      ensures logs == Upsert(old(logs), Iso(today), habit, status)
      ensures habits == old(habits)
    {
      logs := Upsert(logs, Iso(today), habit, status);
    }

    /** "➕ 追加": adds a habit with the stripped name when the name is not blank. */
    method AddHabit(name: string, freshId: string, now: string) returns (added: bool)
      modifies this
      ensures added <==> !IsBlank(name)
      ensures added ==> habits == old(habits) + [Habit(freshId, Strip(name), now)]
      ensures !added ==> habits == old(habits)
      ensures logs == old(logs)
    {
      if Strip(name) != [] {
        habits := habits + [Habit(freshId, Strip(name), now)];
        added := true;
      } else {
        added := false;
      }
    }

    /** "🗑 習慣を削除": drops the habit; its log entries stay behind. */
    method DeleteHabit(hid: string)
      modifies this
      ensures habits == RemoveHabit(old(habits), hid)
      ensures logs == old(logs)
    {
      habits := RemoveHabit(habits, hid);
    }

    /** "🧨 logs.json を全削除". */
    method ClearLogs()
      modifies this
      ensures logs == map[] && habits == old(habits)
    {
      logs := map[];
    }
  }
}
