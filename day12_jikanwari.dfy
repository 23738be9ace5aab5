/**
 * day12_jikanwari: a one-day timetable maker.  Tasks (name, minutes,
 * priority) are collected from a form; on request they are taken in
 * priority order and laid out from the start time with a 5-minute break
 * after each, tasks that would run past the end time being set aside.
 *
 * Times of day are minutes since midnight (the time inputs have no seconds).
 */
module Jikanwari {
  import opened PyText
  import opened Sorting

  datatype Task = Task(name: string, minutes: int, priority: string)

  /** A timetable row: the task and its start and end times (shown with `PyText.HourMinute`). */
  datatype Row = Row(start: int, end: int, task: Task)

  const BreakMinutes := 5

  /** The minutes the form allows: at least 5 (and at most 600). */
  predicate NonNegative(ts: seq<Task>) {
    forall k :: 0 <= k < |ts| ==> ts[k].minutes >= 0
  }

  // ---------------------------------------------------------------------
  // Priority order

  /** `priority_key(p)`: 高 first, 低 last, anything else in the middle. */
  function PriorityKey(p: string): (k: int)
    ensures 0 <= k <= 2
    ensures k == 0 <==> p == "高"
    ensures k == 2 <==> p == "低"
  {
    if p == "高" then 0 else if p == "低" then 2 else 1
  }

  function TaskKey(t: Task): int { PriorityKey(t.priority) }

  /** `sorted(tasks, key=lambda x: priority_key(x["priority"]))`. */
  function ByPriority(tasks: seq<Task>): (r: seq<Task>)
    ensures multiset(r) == multiset(tasks) && |r| == |tasks|
    ensures forall i, j :: 0 <= i < j < |r| ==> PriorityKey(r[i].priority) <= PriorityKey(r[j].priority)
    ensures Stable(tasks, r, TaskKey)
  {
    IntLessTotal();
    var r := SortBy(tasks, TaskKey, IntLess());
    assert forall i, j :: 0 <= i < j < |r| ==> !IntLess()(TaskKey(r[j]), TaskKey(r[i]));
    r
  }

  // ---------------------------------------------------------------------
  // Laying out the timetable

  /** The rows, the set-aside tasks, and how many tasks were looked at before the loop stopped. */
  datatype Plan = Plan(rows: seq<Row>, overflow: seq<Task>, used: nat)

  /** The layout loop from cursor `cur`, as a recursion over the remaining tasks. */
  function Fill(ts: seq<Task>, cur: int, end: int): (p: Plan)
    ensures p.used <= |ts|
  {
    if ts == [] then Plan([], [], 0)
    else
      var t := ts[0];
      var e := cur + t.minutes;
      if e > end then
        var p := Fill(ts[1..], cur, end);
        Plan(p.rows, [t] + p.overflow, p.used + 1)
      else if e + BreakMinutes >= end then Plan([Row(cur, e, t)], [], 1)
      else
        var p := Fill(ts[1..], e + BreakMinutes, end);
        Plan([Row(cur, e, t)] + p.rows, p.overflow, p.used + 1)
  }

  /** Where the cursor stands after the loop. */
  function FinalCursor(rows: seq<Row>, cur: int): int {
    if rows == [] then cur else rows[|rows| - 1].end + BreakMinutes
  }

  /**
   * Every row runs its task's minutes, lies between the cursor and the end
   * time, the first one starts at the cursor, and each next one starts
   * exactly 5 minutes after the previous one ends.
   */
  lemma {:induction false} FillShape(ts: seq<Task>, cur: int, end: int)
    requires NonNegative(ts)
    ensures var rows := Fill(ts, cur, end).rows;
      (forall k :: 0 <= k < |rows| ==>
         cur <= rows[k].start <= rows[k].end <= end && rows[k].end == rows[k].start + rows[k].task.minutes)
      && (rows != [] ==> rows[0].start == cur)
      && (forall k :: 0 <= k < |rows| - 1 ==> rows[k + 1].start == rows[k].end + BreakMinutes)
  {
    if ts != [] {
      var e := cur + ts[0].minutes;
      if e > end {
        FillShape(ts[1..], cur, end);
      } else if e + BreakMinutes < end {
        FillShape(ts[1..], e + BreakMinutes, end);
        var rest := Fill(ts[1..], e + BreakMinutes, end).rows;
        var rows := [Row(cur, e, ts[0])] + rest;
        assert forall k :: 1 <= k < |rows| ==> rows[k] == rest[k - 1];
      }
    }
  }

  /** `sum(row["分数"] for row in schedule_rows)`. */
  function SumMinutes(rows: seq<Row>): int {
    if rows == [] then 0 else rows[0].task.minutes + SumMinutes(rows[1..])
  }

  /** `max(0, (len(schedule_rows) - 1) * BREAK_MINUTES)`. */
  function Breaks(n: nat): (b: nat)
    ensures n >= 1 ==> b == (n - 1) * BreakMinutes
  {
    if n == 0 then 0 else (n - 1) * BreakMinutes
  }

  /** The task minutes plus the breaks between them fit in the time from the cursor to the end. */
  lemma {:induction false} FillFits(ts: seq<Task>, cur: int, end: int)
    requires NonNegative(ts) && cur <= end
    ensures var rows := Fill(ts, cur, end).rows;
      SumMinutes(rows) + Breaks(|rows|) <= end - cur
  {
    if ts != [] {
      var e := cur + ts[0].minutes;
      if e > end {
        FillFits(ts[1..], cur, end);
      } else if e + BreakMinutes < end {
        FillFits(ts[1..], e + BreakMinutes, end);
        var rest := Fill(ts[1..], e + BreakMinutes, end).rows;
        assert ([Row(cur, e, ts[0])] + rest)[1..] == rest;
      }
    }
  }

  function RowTasks(rows: seq<Row>): (r: seq<Task>)
    ensures |r| == |rows| && forall k :: 0 <= k < |r| ==> r[k] == rows[k].task
  {
    if rows == [] then [] else [rows[0].task] + RowTasks(rows[1..])
  }

  /**
   * The looked-at tasks are exactly the scheduled ones and the set-aside
   * ones: the tasks after an early stop are in neither list.
   */
  lemma {:induction false} FillAccounts(ts: seq<Task>, cur: int, end: int)
    ensures Accounted(ts, Fill(ts, cur, end))
  {
    if ts != [] {
      var e := cur + ts[0].minutes;
      if e > end {
        FillAccounts(ts[1..], cur, end);
        AccountOverflow(ts, cur, end);
      } else if e + BreakMinutes >= end {
        assert ts[..1] == [ts[0]];
        assert RowTasks([Row(cur, e, ts[0])]) == [ts[0]];
      } else {
        FillAccounts(ts[1..], e + BreakMinutes, end);
        AccountRow(ts, cur, end);
      }
    }
  }

  predicate Accounted(ts: seq<Task>, p: Plan)
    requires p.used <= |ts|
  {
    multiset(RowTasks(p.rows)) + multiset(p.overflow) == multiset(ts[..p.used])
  }

  lemma AccountOverflow(ts: seq<Task>, cur: int, end: int)
    requires ts != [] && cur + ts[0].minutes > end
    requires Accounted(ts[1..], Fill(ts[1..], cur, end))
    ensures Accounted(ts, Fill(ts, cur, end))
  {
    var q := Fill(ts[1..], cur, end);
    assert Fill(ts, cur, end) == Plan(q.rows, [ts[0]] + q.overflow, q.used + 1);
    TakeCons(ts, q.used);
    assert multiset([ts[0]] + q.overflow) == multiset{ts[0]} + multiset(q.overflow);
  }

  lemma AccountRow(ts: seq<Task>, cur: int, end: int)
    requires ts != [] && cur + ts[0].minutes + BreakMinutes < end
    requires Accounted(ts[1..], Fill(ts[1..], cur + ts[0].minutes + BreakMinutes, end))
    ensures Accounted(ts, Fill(ts, cur, end))
  {
    var e := cur + ts[0].minutes;
    var q := Fill(ts[1..], e + BreakMinutes, end);
    var r := Row(cur, e, ts[0]);
    assert Fill(ts, cur, end) == Plan([r] + q.rows, q.overflow, q.used + 1);
    TakeCons(ts, q.used);
    RowTasksCons(r, q.rows);
    assert multiset([ts[0]] + RowTasks(q.rows)) == multiset{ts[0]} + multiset(RowTasks(q.rows));
  }

  /** The first `n + 1` items are the head and the first `n` of the tail. */
  lemma TakeCons<T>(s: seq<T>, n: nat)
    requires n < |s|
    ensures s[..n + 1] == [s[0]] + s[1..][..n]
    ensures multiset(s[..n + 1]) == multiset{s[0]} + multiset(s[1..][..n])
  {
    assert s[..n + 1] == [s[0]] + s[1..][..n];
  }

  lemma RowTasksCons(r: Row, rows: seq<Row>)
    ensures RowTasks([r] + rows) == [r.task] + RowTasks(rows)
  {
    assert ([r] + rows)[1..] == rows;
  }

  /** When the loop stopped early, the last row's break reached the end time. */
  lemma {:induction false} FillStops(ts: seq<Task>, cur: int, end: int)
    ensures var p := Fill(ts, cur, end);
      p.used < |ts| ==> p.rows != [] && p.rows[|p.rows| - 1].end + BreakMinutes >= end
  {
    if ts != [] {
      var t := ts[0];
      var e := cur + t.minutes;
      if e > end {
        FillStops(ts[1..], cur, end);
      } else if e + BreakMinutes < end {
        var q := Fill(ts[1..], e + BreakMinutes, end);
        FillStops(ts[1..], e + BreakMinutes, end);
        var rows := [Row(cur, e, t)] + q.rows;
        if q.rows != [] {
          assert rows[|rows| - 1] == q.rows[|q.rows| - 1];
        }
      }
    }
  }

  /** No set-aside task would fit in the time the timetable leaves before the end. */
  lemma {:induction false} OverflowDoesNotFit(ts: seq<Task>, cur: int, end: int)
    requires NonNegative(ts)
    ensures var p := Fill(ts, cur, end);
      forall k :: 0 <= k < |p.overflow| ==> p.overflow[k].minutes > end - FinalCursor(p.rows, cur)
  {
    if ts != [] {
      var e := cur + ts[0].minutes;
      var p := Fill(ts, cur, end);
      if e > end {
        OverflowDoesNotFit(ts[1..], cur, end);
        CursorAdvances(ts[1..], cur, end);
        assert forall k :: 1 <= k < |p.overflow| ==> p.overflow[k] == Fill(ts[1..], cur, end).overflow[k - 1];
      } else if e + BreakMinutes < end {
        var q := Fill(ts[1..], e + BreakMinutes, end);
        OverflowDoesNotFit(ts[1..], e + BreakMinutes, end);
        assert var p' := Fill(ts[1..], e + BreakMinutes, end);
          forall k :: 0 <= k < |p'.overflow| ==> p'.overflow[k].minutes > end - FinalCursor(p'.rows, e + BreakMinutes);
        assert p.overflow == q.overflow && p.rows == [Row(cur, e, ts[0])] + q.rows;
        assert FinalCursor(p.rows, cur) == FinalCursor(q.rows, e + BreakMinutes) by {
          if q.rows != [] { assert p.rows[|p.rows| - 1] == q.rows[|q.rows| - 1]; }
        }
        assert forall k :: 0 <= k < |q.overflow| ==> q.overflow[k].minutes > end - FinalCursor(q.rows, e + BreakMinutes);
      }
    }
  }

  /** The cursor never moves back. */
  lemma {:induction false} CursorAdvances(ts: seq<Task>, cur: int, end: int)
    requires NonNegative(ts)
    ensures FinalCursor(Fill(ts, cur, end).rows, cur) >= cur
  {
    if ts != [] {
      var e := cur + ts[0].minutes;
      if e > end {
        CursorAdvances(ts[1..], cur, end);
      } else if e + BreakMinutes < end {
        var q := Fill(ts[1..], e + BreakMinutes, end);
        CursorAdvances(ts[1..], e + BreakMinutes, end);
        var p := Fill(ts, cur, end);
        if q.rows != [] { assert p.rows[|p.rows| - 1] == q.rows[|q.rows| - 1]; }
      }
    }
  }

  /** The `for t in sorted_tasks` loop with its `continue` and `break`. */
  method Layout(sorted: seq<Task>, start: int, end: int) returns (rows: seq<Row>, overflow: seq<Task>)
    ensures rows == Fill(sorted, start, end).rows && overflow == Fill(sorted, start, end).overflow
  {
    rows, overflow := [], [];
    var cur := start;
    var i := 0;
    while i < |sorted|
      invariant 0 <= i <= |sorted|
      invariant Fill(sorted, start, end).rows == rows + Fill(sorted[i..], cur, end).rows
      invariant Fill(sorted, start, end).overflow == overflow + Fill(sorted[i..], cur, end).overflow
    {
      var t := sorted[i];
      var taskEnd := cur + t.minutes;
      assert sorted[i..][1..] == sorted[i + 1..];
      if taskEnd > end {
        overflow := overflow + [t];
        i := i + 1;
        continue;
      }
      rows := rows + [Row(cur, taskEnd, t)];
      var next := taskEnd + BreakMinutes;
      if next >= end {
        break;
      }
      cur := next;
      i := i + 1;
    }
  }

  // ---------------------------------------------------------------------
  // The button

  datatype Outcome =
    | NoTasks
    | BadRange
    | Made(available: int, rows: seq<Row>, overflow: seq<Task>)

  /**
   * The "make the timetable" button: refused without tasks or when the end
   * time is not after the start time; otherwise the tasks in priority order
   * laid out between the two times.
   */
  method MakeSchedule(tasks: seq<Task>, start: int, end: int) returns (o: Outcome)
    ensures tasks == [] <==> o == NoTasks
    ensures tasks != [] && end <= start <==> o == BadRange
    ensures o.Made? ==> o.available == end - start
    ensures o.Made? ==> o.rows == Fill(ByPriority(tasks), start, end).rows
    ensures o.Made? ==> o.overflow == Fill(ByPriority(tasks), start, end).overflow
  {
    if tasks == [] {
      return NoTasks;
    }
    if end <= start {
      return BadRange;
    }
    var rows, overflow := Layout(ByPriority(tasks), start, end);
    return Made(end - start, rows, overflow);
  }

  /** The reported working minutes and breaks never exceed the available minutes. */
  lemma MadeFits(tasks: seq<Task>, start: int, end: int)
    requires NonNegative(tasks) && start < end
    ensures var rows := Fill(ByPriority(tasks), start, end).rows;
      SumMinutes(rows) <= SumMinutes(rows) + Breaks(|rows|) <= end - start
  {
    var s := ByPriority(tasks);
    forall k | 0 <= k < |s| ensures s[k].minutes >= 0 {
      assert s[k] in multiset(tasks);
    }
    FillFits(s, start, end);
  }

  // ---------------------------------------------------------------------
  // The task list

  class TaskList {
    var tasks: seq<Task>

    constructor()
      ensures tasks == []
    {
      tasks := [];
    }

    /** The add form: a blank name is refused, otherwise the stripped name is appended. */
    method Add(name: string, minutes: int, priority: string) returns (added: bool)
      modifies this
      ensures added <==> !IsBlank(name)
      ensures added ==> tasks == old(tasks) + [Task(Strip(name), minutes, priority)]
      ensures !added ==> tasks == old(tasks)
    {
      if IsBlank(name) {
        return false;
      }
      tasks := tasks + [Task(Strip(name), minutes, priority)];
      return true;
    }

    /** The reset button. */
    method Reset()
      modifies this
      ensures tasks == []
    {
      tasks := [];
    }
  }
}
