/**
 * day36_Schedule: a day plan of blocks that start at an "HH:MM" time, kept
 * in start-time order, with overlap detection, an hour-by-hour timeline and
 * a run timer that walks through the blocks one after another.
 */
module Schedule {
  import opened PyText
  import opened Sorting
  import opened DateText
  import opened PyNum

  /** A plan entry as `asdict(Block(...))` stores it. */
  datatype Block = Block(start: string, title: string, minutes: int, note: string, tag: string)

  /** What the run timer appends to the day's log. */
  datatype LogEntry =
    | Started(time: string, planStart: string, title: string, minutes: int, tag: string)
    | Paused(time: string, title: string, elapsedSec: int)
    | Finished(time: string, planStart: string, title: string, minutes: int, elapsedSec: int, tag: string, note: string)

  // ---------------------------------------------------------------------
  // Clock text

  /**
   * `parse_hhmm(s)`: minutes after midnight for text "H:M" that splits into
   * exactly two integers with 0 <= H <= 23 and 0 <= M <= 59, else None.
   */
  function ParseHhmm(s: string): (r: Option<int>)
    ensures r.Some? ==> 0 <= r.value < 1440
  {
    var parts := Split(s, ':');
    if |parts| != 2 then None else HhmmFields(parts[0], parts[1])
  }

  /** Text without exactly one ':' is never a clock time. */
  lemma ParseHhmmOneColon(s: string)
    ensures CountChar(s, ':') != 1 ==> ParseHhmm(s).None?
  {
    SplitCount(s, ':');
  }

  /** The value of the two fields of "H:M", if both are integers in range. */
  function HhmmFields(a: string, b: string): (r: Option<int>)
    ensures r.Some? ==> 0 <= r.value < 1440
  {
    match (ParseInt(a), ParseInt(b))
    case (Some(hh), Some(mm)) => if 0 <= hh <= 23 && 0 <= mm <= 59 then Some(hh * 60 + mm) else None
    case _ => None
  }

  /** Two integer fields around one ':' read as that clock time when both are in range. */
  lemma ParseHhmmFields(a: string, b: string, hh: int, mm: int)
    requires !ContainsChar(a, ':') && !ContainsChar(b, ':')
    requires ParseInt(a) == Some(hh) && ParseInt(b) == Some(mm)
    ensures ParseHhmm(a + ":" + b) == (if 0 <= hh <= 23 && 0 <= mm <= 59 then Some(hh * 60 + mm) else None)
  {
    var s := a + ":" + b;
    assert s == a + [':'] + b;
    SplitTwo(a, b, ':');
    ParseHhmmParts(s, a, b);
    HhmmFieldsValue(a, b, hh, mm);
  }

  lemma HhmmFieldsValue(a: string, b: string, hh: int, mm: int)
    requires ParseInt(a) == Some(hh) && ParseInt(b) == Some(mm)
    ensures HhmmFields(a, b) == (if 0 <= hh <= 23 && 0 <= mm <= 59 then Some(hh * 60 + mm) else None)
  {
  }

  lemma ParseHhmmParts(s: string, a: string, b: string)
    requires Split(s, ':') == [a, b]
    ensures ParseHhmm(s) == HhmmFields(a, b)
  {
  }

  /** `fmt_hhmm(t)`: the hour `(t // 60) % 24` and minute `t % 60` as two-digit fields. */
  function FmtHhmm(t: int): (s: string)
    ensures |s| == 5 && s[2] == ':'
    ensures AllDigits(s[..2]) && AllDigits(s[3..])
  {
    Digits2Value((t / 60) % 24);
    Digits2Value(t % 60);
    var s := Digits2((t / 60) % 24) + ":" + Digits2(t % 60);
    assert s[..2] == Digits2((t / 60) % 24) && s[3..] == Digits2(t % 60);
    s
  }

  /** Formatting then parsing gives the time of day, `t mod 1440`, for every integer. */
  lemma ParseFmtHhmm(t: int)
    ensures ParseHhmm(FmtHhmm(t)) == Some(t % 1440)
  {
    var h, m := (t / 60) % 24, t % 60;
    assert FmtHhmm(t) == Digits2(h) + ":" + Digits2(m);
    ParseTwoDigitFields(h, m);
    ClockArith(t);
  }

  /** Two two-digit fields around ':' read back as that clock time. */
  lemma ParseTwoDigitFields(h: int, m: int)
    requires 0 <= h < 24 && 0 <= m < 60
    ensures ParseHhmm(Digits2(h) + ":" + Digits2(m)) == Some(h * 60 + m)
  {
    var a, b := Digits2(h), Digits2(m);
    assert ParseInt(a) == Some(h) by {
      Digits2Value(h);
      ParseIntDigits(a);
    }
    assert ParseInt(b) == Some(m) by {
      Digits2Value(m);
      ParseIntDigits(b);
    }
    assert !ContainsChar(a, ':') && !ContainsChar(b, ':') by {
      Digits2Value(h);
      Digits2Value(m);
      NoColonInDigits(a);
      NoColonInDigits(b);
    }
    ParseHhmmFields(a, b, h, m);
  }

  lemma NoColonInDigits(d: string)
    requires AllDigits(d)
    ensures !ContainsChar(d, ':')
  {
    forall i | 0 <= i < |d| ensures d[i] != ':' { assert IsDigit(d[i]); }
  }

  lemma ClockArith(t: int)
    ensures ((t / 60) % 24) * 60 + t % 60 == t % 1440
  {
    var q, m := t / 60, t % 60;
    var k, h := q / 24, q % 24;
    assert t == 1440 * k + (h * 60 + m);
    assert 0 <= h * 60 + m < 1440;
  }

  // ---------------------------------------------------------------------
  // Ordering the plan

  /** The sort key of `sort_plan`: the parsed start, unparsable starts at 10**9. */
  function StartKey(b: Block): int {
    match ParseHhmm(b.start)
    case Some(v) => v
    case None => 1000000000
  }

  /** `sort_plan(plan)`: the blocks stably sorted by start time. */
  function SortPlan(plan: seq<Block>): (r: seq<Block>)
    ensures multiset(r) == multiset(plan) && |r| == |plan|
    ensures SortedBy(r, StartKey, IntLess())
    ensures Stable(plan, r, StartKey)
  {
    IntLessTotal();
    SortBy(plan, StartKey, IntLess())
  }

  /** After sorting, a block without a readable start is followed only by such blocks. */
  lemma UnparsableLast(plan: seq<Block>)
    ensures var r := SortPlan(plan);
      forall i, j :: 0 <= i < j < |r| && ParseHhmm(r[i].start).None? ==> ParseHhmm(r[j].start).None?
  {
    var r := SortPlan(plan);
    forall i, j | 0 <= i < j < |r| && ParseHhmm(r[i].start).None?
      ensures ParseHhmm(r[j].start).None?
    {
      assert !IntLess()(StartKey(r[j]), StartKey(r[i]));
    }
  }

  /** Exchanging entries `i` and `j`, as `plan[i], plan[j] = plan[j], plan[i]` does. */
  function Swap(s: seq<Block>, i: int, j: int): (r: seq<Block>)
    requires 0 <= i < |s| && 0 <= j < |s|
    ensures |r| == |s| && r[i] == s[j] && r[j] == s[i]
    ensures forall k :: 0 <= k < |s| && k != i && k != j ==> r[k] == s[k]
    ensures multiset(r) == multiset(s)
  {
    s[i := s[j]][j := s[i]]
  }

  /**
   * In a plan already in start order, "↑" on row `i` and "↓" on row `i - 1`
   * exchange the same two rows.  The re-sort on the next screen update puts
   * them back when their start keys differ, and keeps the exchange when the
   * keys are equal.
   */
  lemma SwapResorted(plan: seq<Block>, i: int)
    requires SortedBy(plan, StartKey, IntLess()) && 0 < i < |plan|
    ensures Swap(plan, i, i - 1) == Swap(plan, i - 1, i)
    ensures StartKey(plan[i - 1]) != StartKey(plan[i]) ==> SortPlan(Swap(plan, i - 1, i)) == plan
    ensures StartKey(plan[i - 1]) == StartKey(plan[i]) ==> SortPlan(Swap(plan, i - 1, i)) == Swap(plan, i - 1, i)
  {
    IntLessTotal();
    SwapNeighbours(plan, i);
    if StartKey(plan[i - 1]) != StartKey(plan[i]) {
      SortUndoesSwap(plan, i, StartKey, IntLess());
    } else {
      SortKeepsSwap(plan, i, StartKey, IntLess());
    }
  }

  /** Exchanging neighbours, in either argument order, splices the pair in reversed. */
  lemma SwapNeighbours(plan: seq<Block>, i: int)
    requires 0 < i < |plan|
    ensures Swap(plan, i - 1, i) == plan[..i - 1] + [plan[i], plan[i - 1]] + plan[i + 1..]
    ensures Swap(plan, i, i - 1) == Swap(plan, i - 1, i)
  {
    var w := plan[..i - 1] + [plan[i], plan[i - 1]] + plan[i + 1..];
    var v := Swap(plan, i - 1, i);
    assert |w| == |v|;
    forall k | 0 <= k < |plan| ensures w[k] == v[k] {
      if k > i {
        assert w[k] == plan[i + 1..][k - i - 1];
      }
    }
  }

  /** `plan.pop(i)`: one entry leaves, the others keep their order. */
  function Pop(s: seq<Block>, i: int): (r: seq<Block>)
    requires 0 <= i < |s|
    ensures |r| == |s| - 1
    ensures forall k :: 0 <= k < i ==> r[k] == s[k]
    ensures forall k :: i <= k < |r| ==> r[k] == s[k + 1]
    ensures multiset(r) + multiset{s[i]} == multiset(s)
  {
    assert s == s[..i] + [s[i]] + s[i + 1..];
    s[..i] + s[i + 1..]
  }

  // ---------------------------------------------------------------------
  // Overlaps

  /** What `detect_conflicts` and the timeline read from a block: its parsed start and its length. */
  datatype Slot = Slot(start: Option<int>, minutes: int)

  function Slots(plan: seq<Block>): (r: seq<Slot>)
    ensures |r| == |plan|
    ensures forall i {:trigger plan[i]} :: 0 <= i < |plan| ==> r[i] == Slot(ParseHhmm(plan[i].start), plan[i].minutes)
  {
    seq(|plan|, i requires 0 <= i < |plan| => Slot(ParseHhmm(plan[i].start), plan[i].minutes))
  }

  function EndOf(s: Slot): int
    requires s.start.Some?
  {
    s.start.value + s.minutes
  }

  /** The index of the last slot before `n` with a readable start. */
  function LastTimed(slots: seq<Slot>, n: nat): (r: Option<nat>)
    requires n <= |slots|
    ensures r.Some? ==> r.value < n && slots[r.value].start.Some?
    ensures r.Some? ==> forall j :: r.value < j < n ==> slots[j].start.None?
    ensures r.None? ==> forall j :: 0 <= j < n ==> slots[j].start.None?
  {
    if n == 0 then None
    else if slots[n - 1].start.Some? then Some(n - 1)
    else LastTimed(slots, n - 1)
  }

  /** The latest end among the timed slots before `n`. */
  function MaxEnd(slots: seq<Slot>, n: nat): (r: Option<int>)
    requires n <= |slots|
    ensures r.Some? <==> LastTimed(slots, n).Some?
  {
    if n == 0 then None
    else
      var m := MaxEnd(slots, n - 1);
      if slots[n - 1].start.None? then m
      else if m.None? then Some(EndOf(slots[n - 1]))
      else Some(Max(m.value, EndOf(slots[n - 1])))
  }

  function Max(a: int, b: int): int {
    if a >= b then a else b
  }

  /** The maximum is the end of some timed slot and no timed slot ends later. */
  lemma {:induction false} MaxEndMeaning(slots: seq<Slot>, n: nat)
    requires n <= |slots|
    ensures MaxEnd(slots, n).Some? ==>
      forall j :: 0 <= j < n && slots[j].start.Some? ==> EndOf(slots[j]) <= MaxEnd(slots, n).value
    ensures MaxEnd(slots, n).Some? ==>
      exists j :: 0 <= j < n && slots[j].start.Some? && EndOf(slots[j]) == MaxEnd(slots, n).value
  {
    if n > 0 {
      MaxEndMeaning(slots, n - 1);
      if slots[n - 1].start.Some? && MaxEnd(slots, n - 1).Some? {
        var j :| 0 <= j < n - 1 && slots[j].start.Some? && EndOf(slots[j]) == MaxEnd(slots, n - 1).value;
      }
    }
  }

  /** Slot `i` starts before the latest end of the timed slots in front of it. */
  predicate Conflicting(slots: seq<Slot>, i: nat)
    requires i < |slots|
  {
    slots[i].start.Some? && MaxEnd(slots, i).Some? && slots[i].start.value < MaxEnd(slots, i).value
  }

  /** The pairs (previous timed slot, conflicting slot) among the first `n`, in order. */
  function ConflictPairs(slots: seq<Slot>, n: nat): (r: seq<(int, int)>)
    requires n <= |slots|
    ensures |r| <= n
    ensures forall k :: 0 <= k < |r| ==> 0 <= r[k].0 < r[k].1 < n && Conflicting(slots, r[k].1)
  {
    if n == 0 then []
    else ConflictPairs(slots, n - 1) + (if Conflicting(slots, n - 1) then [(LastTimed(slots, n - 1).value as int, n - 1)] else [])
  }

  /**
   * A block conflicts exactly when it is timed and starts before the end
   * of some earlier timed block.
   */
  lemma ConflictMeaning(slots: seq<Slot>, i: nat)
    requires i < |slots|
    ensures Conflicting(slots, i) <==>
      slots[i].start.Some? && exists j :: 0 <= j < i && slots[j].start.Some? && slots[i].start.value < EndOf(slots[j])
  {
    MaxEndMeaning(slots, i);
    if slots[i].start.Some? && exists j :: 0 <= j < i && slots[j].start.Some? && slots[i].start.value < EndOf(slots[j]) {
      var j :| 0 <= j < i && slots[j].start.Some? && slots[i].start.value < EndOf(slots[j]);
      assert LastTimed(slots, i).Some?;
    }
  }

  /**
   * A reported pair (j, i) names a conflicting block i and the timed block
   * j right before it, so j < i, and every conflicting block is reported.
   */
  lemma {:induction false} ConflictPairsMeaning(slots: seq<Slot>, n: nat)
    requires n <= |slots|
    ensures forall p :: p in ConflictPairs(slots, n) ==>
      0 <= p.0 < p.1 < n && Conflicting(slots, p.1) && LastTimed(slots, p.1) == Some(p.0 as nat)
    ensures forall i :: 0 <= i < n && Conflicting(slots, i) ==> (LastTimed(slots, i).value as int, i) in ConflictPairs(slots, n)
  {
    if n > 0 {
      ConflictPairsMeaning(slots, n - 1);
    }
  }

  /**
   * `detect_conflicts(plan)`.  The loop keeps the running end through
   * `max(prev_end or end, end)`, which takes `end` when the running end is 0;
   * starts are never negative, so the pairs are still those of the true
   * maximum.
   */
  method DetectConflicts(plan: seq<Block>) returns (conflicts: seq<(int, int)>)
    ensures conflicts == ConflictPairs(Slots(plan), |plan|)
    ensures forall p :: p in conflicts ==>
      0 <= p.0 < p.1 < |plan| && Conflicting(Slots(plan), p.1) && LastTimed(Slots(plan), p.1) == Some(p.0 as nat)
    ensures forall i :: 0 <= i < |plan| && Conflicting(Slots(plan), i) ==>
      (LastTimed(Slots(plan), i).value as int, i) in conflicts
  {
    ghost var slots := Slots(plan);
    conflicts := [];
    var prevEnd: Option<int> := None;
    var prevIdx: Option<nat> := None;
    for i := 0 to |plan|
      invariant conflicts == ConflictPairs(slots, i)
      invariant Tracks(prevEnd, MaxEnd(slots, i))
      invariant prevIdx == LastTimed(slots, i)
    {
      var s := ParseHhmm(plan[i].start);
      assert s == slots[i].start;
      if s.None? {
        UntimedStep(slots, i);
        continue;
      }
      var end := s.value + plan[i].minutes;
      assert slots[i] == Slot(s, plan[i].minutes);
      RunningEnd(slots, i, prevEnd, end);
      if prevEnd.Some? && s.value < prevEnd.value {
        conflicts := conflicts + [(prevIdx.value, i)];
      }
      prevEnd := Some(if prevEnd.None? || prevEnd.value == 0 then end else Max(prevEnd.value, end));
      prevIdx := Some(i);
    }
    ConflictPairsMeaning(slots, |plan|);
  }

  /** The running end `p` stands for the true maximum `m`, or is below it when `m` is 0. */
  predicate Tracks(p: Option<int>, m: Option<int>) {
    (p.Some? <==> m.Some?) && (p.Some? ==> p.value == m.value || (m.value == 0 && p.value < 0))
  }

  /** An untimed block changes nothing. */
  lemma UntimedStep(slots: seq<Slot>, i: nat)
    requires i < |slots| && slots[i].start.None?
    ensures MaxEnd(slots, i + 1) == MaxEnd(slots, i) && LastTimed(slots, i + 1) == LastTimed(slots, i)
    ensures ConflictPairs(slots, i + 1) == ConflictPairs(slots, i)
  {
    assert !Conflicting(slots, i);
  }

  /** A timed block: the running end compares and updates like the true maximum. */
  lemma RunningEnd(slots: seq<Slot>, i: nat, p: Option<int>, e: int)
    requires i < |slots| && slots[i].start.Some? && slots[i].start.value >= 0
    requires Tracks(p, MaxEnd(slots, i)) && e == EndOf(slots[i])
    ensures (p.Some? && slots[i].start.value < p.value) <==> Conflicting(slots, i)
    ensures Tracks(Some(if p.None? || p.value == 0 then e else Max(p.value, e)), MaxEnd(slots, i + 1))
    ensures LastTimed(slots, i + 1) == Some(i)
    ensures ConflictPairs(slots, i + 1)
         == ConflictPairs(slots, i) + (if Conflicting(slots, i) then [(LastTimed(slots, i).value as int, i)] else [])
  {
  }

  // ---------------------------------------------------------------------
  // Timeline

  /** The hour a start time falls in. */
  function HourOf(v: int): (h: int)
    requires 0 <= v < 1440
    ensures 0 <= h < 24 && h * 60 <= v < h * 60 + 60
  {
    v / 60
  }

  predicate StartsInHour(s: Slot, h: int) {
    s.start.Some? && 0 <= s.start.value < 1440 && HourOf(s.start.value) == h
  }

  /** The blocks of the first `n` whose slot starts in hour `h`, in plan order. */
  function InHour(plan: seq<Block>, slots: seq<Slot>, n: nat, h: int): (r: seq<Block>)
    requires n <= |plan| == |slots|
    ensures forall b :: b in r ==> exists k :: 0 <= k < n && plan[k] == b && StartsInHour(slots[k], h)
  {
    if n == 0 then []
    else
      var rest := InHour(plan, slots, n - 1, h);
      if StartsInHour(slots[n - 1], h) then rest + [plan[n - 1]] else rest
  }

  /** Every timed block is listed under the hour of its start. */
  lemma {:induction false} InHourComplete(plan: seq<Block>, slots: seq<Slot>, n: nat, k: nat)
    requires n <= |plan| == |slots| && k < n && slots[k].start.Some? && 0 <= slots[k].start.value < 1440
    ensures plan[k] in InHour(plan, slots, n, HourOf(slots[k].start.value))
  {
    if k < n - 1 {
      InHourComplete(plan, slots, n - 1, k);
    }
  }

  /** The `hour_blocks` table of the timeline. */
  method HourBlocks(plan: seq<Block>) returns (buckets: seq<seq<Block>>)
    ensures |buckets| == 24
    ensures forall h :: 0 <= h < 24 ==> buckets[h] == InHour(plan, Slots(plan), |plan|, h)
  {
    ghost var slots := Slots(plan);
    buckets := seq(24, h => []);
    for i := 0 to |plan|
      invariant |buckets| == 24
      invariant forall h :: 0 <= h < 24 ==> buckets[h] == InHour(plan, slots, i, h)
    {
      var s := ParseHhmm(plan[i].start);
      assert s == slots[i].start;
      if s.None? {
        continue;
      }
      var h := s.value / 60;
      buckets := buckets[h := buckets[h] + [plan[i]]];
    }
  }

  // ---------------------------------------------------------------------
  // Run timer

  /** `title.strip() or "無題"`. */
  function DefaultTitle(title: string): (r: string)
    ensures r != []
    ensures !IsBlank(title) ==> r == Strip(title)
  {
    var t := Strip(title);
    if t == [] then "無題" else t
  }

  /** `min(max(0, cur), n - 1)`: the preselected block, always a valid index. */
  function DefaultIndex(cur: Option<int>, n: int): (r: int)
    requires n > 0
    ensures 0 <= r < n
    ensures cur.Some? && 0 <= cur.value < n ==> r == cur.value
    ensures cur.None? ==> r == 0
  {
    match cur
    case None => 0
    case Some(c) => if c < 0 then 0 else if c > n - 1 then n - 1 else c
  }

  /** `max(0, total_sec - elapsed)`. */
  function Remaining(totalSec: int, elapsed: int): (r: int)
    ensures r >= 0 && r >= totalSec - elapsed
    ensures r == 0 || r == totalSec - elapsed
    ensures 0 <= elapsed && 0 <= totalSec ==> r <= totalSec
  {
    if totalSec - elapsed > 0 then totalSec - elapsed else 0
  }

  class Planner {
    var plan: seq<Block>
    var log: seq<LogEntry>
    var running: bool
    var runTotalSec: int
    var currentBlockId: Option<int>
    var lastTick: Option<real>

    /** The session as first opened: the stored plan and log, the timer idle. */
    constructor(storedPlan: seq<Block>, storedLog: seq<LogEntry>)
      ensures plan == storedPlan && log == storedLog
      ensures !running && runTotalSec == 0 && currentBlockId.None? && lastTick.None?
    {
      plan := storedPlan;
      log := storedLog;
      running := false;
      runTotalSec := 0;
      currentBlockId := None;
      lastTick := None;
    }

    /** The block the timer works on: `current_block_id or 0`. */
    function Current(): int
      reads this
    {
      match currentBlockId
      case None => 0
      case Some(c) => c
    }

    /** Seconds shown as elapsed: the running total only while running. */
    function Elapsed(): int
      reads this
    {
      if running then runTotalSec else 0
    }

    /** "予定に追加": the new block is appended and the plan re-sorted. */
    method Add(start: string, title: string, minutes: int, note: string, tag: string)
      requires !running
      modifies this
      ensures plan == SortPlan(old(plan) + [Block(start, DefaultTitle(title), minutes, Strip(note), tag)])
      ensures log == old(log) && running == old(running) && runTotalSec == old(runTotalSec)
      ensures currentBlockId == old(currentBlockId) && lastTick == old(lastTick)
    {
      plan := SortPlan(plan + [Block(start, DefaultTitle(title), minutes, Strip(note), tag)]);
    }

    /** Each screen update stores the plan in start-time order. */
    method Arrange()
      modifies this
      ensures plan == SortPlan(old(plan))
      ensures log == old(log) && running == old(running) && runTotalSec == old(runTotalSec)
      ensures currentBlockId == old(currentBlockId) && lastTick == old(lastTick)
    {
      plan := SortPlan(plan);
    }

    /** "↑" on row `i`: rows i-1 and i change places. */
    method MoveUp(i: int)
      requires !running && 0 < i < |plan|
      modifies this
      ensures plan == Swap(old(plan), i - 1, i)
      ensures log == old(log) && running == old(running) && runTotalSec == old(runTotalSec)
      ensures currentBlockId == old(currentBlockId) && lastTick == old(lastTick)
    {
      var p := plan;
      p := p[i - 1 := plan[i]][i := plan[i - 1]];
      plan := p;
    }

    /** "↓" on row `i`: rows i and i+1 change places. */
    method MoveDown(i: int)
      requires !running && 0 <= i < |plan| - 1
      modifies this
      ensures plan == Swap(old(plan), i + 1, i)
      ensures log == old(log) && running == old(running) && runTotalSec == old(runTotalSec)
      ensures currentBlockId == old(currentBlockId) && lastTick == old(lastTick)
    {
      var p := plan;
      p := p[i + 1 := plan[i]][i := plan[i + 1]];
      plan := p;
    }

    /** "🗑️" on row `i`. */
    method Delete(i: int)
      requires !running && 0 <= i < |plan|
      modifies this
      ensures plan == Pop(old(plan), i)
      ensures log == old(log) && running == old(running) && runTotalSec == old(runTotalSec)
      ensures currentBlockId == old(currentBlockId) && lastTick == old(lastTick)
    {
      plan := plan[..i] + plan[i + 1..];
    }

    /** "今日の予定を全削除". */
    method ClearPlan()
      requires !running
      modifies this
      ensures plan == [] && log == old(log) && running == old(running) && runTotalSec == old(runTotalSec)
      ensures currentBlockId == old(currentBlockId) && lastTick == old(lastTick)
    {
      plan := [];
    }

    /** "今日の履歴も全削除". */
    method ClearLog()
      requires !running
      modifies this
      ensures log == [] && plan == old(plan) && running == old(running) && runTotalSec == old(runTotalSec)
      ensures currentBlockId == old(currentBlockId) && lastTick == old(lastTick)
    {
      log := [];
    }

    /** The block chooser while idle: it starts at the clamped previous choice and stores the pick. */
    method Select(pick: int)
      requires !running && 0 <= pick < |plan|
      modifies this
      ensures currentBlockId == Some(pick) && 0 <= Current() < |plan|
      ensures plan == old(plan) && log == old(log) && running == old(running)
      ensures runTotalSec == old(runTotalSec) && lastTick == old(lastTick)
    {
      currentBlockId := Some(pick);
    }

    /** One timer update at time `now`: the whole seconds since the last update are added. */
    method Tick(now: real)
      requires running
      modifies this
      ensures lastTick == Some(now)
      ensures runTotalSec == old(runTotalSec) + (if old(lastTick).None? then 0 else Trunc(now - old(lastTick).value))
      ensures plan == old(plan) && log == old(log) && running == old(running) && currentBlockId == old(currentBlockId)
    {
      var last := if lastTick.None? then now else lastTick.value;
      var delta := now - last;
      lastTick := Some(now);
      runTotalSec := runTotalSec + Trunc(delta);
    }

    /** "開始": the timer runs from zero and a start entry is logged. */
    method Start(clock: string)
      requires !running && 0 <= Current() < |plan|
      modifies this
      ensures plan == old(plan) && currentBlockId == old(currentBlockId)
      ensures running && runTotalSec == 0 && lastTick.None?
      ensures var b := plan[Current()]; log == old(log) + [Started(clock, b.start, b.title, b.minutes, b.tag)]
    {
      var b := plan[Current()];
      running := true;
      lastTick := None;
      runTotalSec := 0;
      log := log + [Started(clock, b.start, b.title, b.minutes, b.tag)];
    }

    /** "停止": the timer stops and the seconds run so far are logged. */
    method Pause(clock: string)
      requires running && 0 <= Current() < |plan|
      modifies this
      ensures plan == old(plan) && currentBlockId == old(currentBlockId)
      ensures !running && lastTick.None? && runTotalSec == old(runTotalSec)
      ensures log == old(log) + [Paused(clock, plan[Current()].title, runTotalSec)]
    {
      running := false;
      lastTick := None;
      log := log + [Paused(clock, plan[Current()].title, runTotalSec)];
    }

    /**
     * "完了": logs the block as done, stops the timer, moves to the next
     * block when there is one, and resets the run total.
     */
    method Complete(clock: string)
      requires 0 <= Current() < |plan|
      modifies this
      ensures !running && lastTick.None? && runTotalSec == 0 && plan == old(plan)
      ensures var b := old(plan[Current()]);
        log == old(log) + [Finished(clock, b.start, b.title, b.minutes, old(Elapsed()), b.tag, b.note)]
      ensures old(Current()) + 1 < |plan| ==> currentBlockId == Some(old(Current()) + 1)
      ensures old(Current()) + 1 >= |plan| ==> currentBlockId == old(currentBlockId)
      ensures 0 <= Current() < |plan|
    {
      var b := plan[Current()];
      var doneElapsed := if running then runTotalSec else 0;
      running := false;
      lastTick := None;
      log := log + [Finished(clock, b.start, b.title, b.minutes, doneElapsed, b.tag, b.note)];
      var idx := Current();
      if idx + 1 < |plan| {
        currentBlockId := Some(idx + 1);
      }
      runTotalSec := 0;
    }
  }
}
