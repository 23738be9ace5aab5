/**
 * day83_Energy_Meter: three check-ins a day (morning, noon, night), each
 * scoring energy, focus and mood from 0 to 10. A check-in's average and the
 * day's average of the saved check-ins decide the day's mode.
 */
module EnergyMeter {
  import opened PyText

  // ---------------------------------------------------------------------
  // Check-ins and their averages

  /** One check-in; the empty dict `{}` has no scores and is not done. */
  datatype Block = Block(done: bool, energy: Option<int>, focus: Option<int>, mood: Option<int>,
                         note: string, savedAt: string)

  const EmptyBlock := Block(false, None, None, None, "", "")

  /** The three scores are present and lie in the sliders' range. */
  predicate InRange(b: Block) {
    b.energy.Some? && b.focus.Some? && b.mood.Some?
    && 0 <= b.energy.value <= 10 && 0 <= b.focus.value <= 10 && 0 <= b.mood.value <= 10
  }

  /** `avg_score(block)`: the mean of the three scores of a done check-in, if all are present. */
  function AvgScore(b: Block): (r: Option<real>)
    ensures r.Some? <==> b.done && b.energy.Some? && b.focus.Some? && b.mood.Some?
    ensures r.Some? ==> r.value * 3.0 == (b.energy.value + b.focus.value + b.mood.value) as real
    ensures r.Some? && InRange(b) ==> 0.0 <= r.value <= 10.0
  {
    if !b.done then None
    else if b.energy.None? || b.focus.None? || b.mood.None? then None
    else Some((b.energy.value + b.focus.value + b.mood.value) as real / 3.0)
  }

  /** `[s for s in [...] if s is not None]`. */
  function Present(xs: seq<Option<real>>): (r: seq<real>)
    ensures |r| <= |xs|
    ensures |r| == 0 <==> forall k :: 0 <= k < |xs| ==> xs[k].None?
  {
    if xs == [] then []
    else if xs[0].Some? then [xs[0].value] + Present(xs[1..])
    else
      assert forall k :: 0 < k < |xs| ==> xs[k] == xs[1..][k - 1];
      Present(xs[1..])
  }

  function Sum(xs: seq<real>): real {
    if xs == [] then 0.0 else xs[0] + Sum(xs[1..])
  }

  /** Every present value comes from an input in [0, 10]. */
  lemma {:induction false} PresentBounded(xs: seq<Option<real>>)
    requires forall k :: 0 <= k < |xs| && xs[k].Some? ==> 0.0 <= xs[k].value <= 10.0
    ensures 0.0 <= Sum(Present(xs)) <= 10.0 * |Present(xs)| as real
  {
    if xs != [] {
      PresentBounded(xs[1..]);
    }
  }

  /** `day_mode(m, n, ni)`: the label and the day's average, if any check-in yields one. */
  function DayMode(m: Block, n: Block, ni: Block): (r: (string, Option<real>))
    ensures r.1.None? <==> (AvgScore(m).None? && AvgScore(n).None? && AvgScore(ni).None?)
    ensures r.1.None? <==> r.0 == "未判定"
    ensures r.1.Some? ==> var s := Present([AvgScore(m), AvgScore(n), AvgScore(ni)]);
      r.1.value * (|s| as real) == Sum(s)
    ensures r.1.Some? ==> (r.0 == "攻め" <==> r.1.value >= 7.0)
    ensures r.1.Some? ==> (r.0 == "守り" <==> 4.5 <= r.1.value < 7.0)
    ensures r.1.Some? ==> (r.0 == "回復" <==> r.1.value < 4.5)
  {
    var xs := [AvgScore(m), AvgScore(n), AvgScore(ni)];
    var scores := Present(xs);
    assert xs[0] == AvgScore(m) && xs[1] == AvgScore(n) && xs[2] == AvgScore(ni);
    if scores == [] then ("未判定", None)
    else
      var dayAvg := Sum(scores) / (|scores| as real);
      if dayAvg >= 7.0 then ("攻め", Some(dayAvg))
      else if dayAvg >= 4.5 then ("守り", Some(dayAvg))
      else ("回復", Some(dayAvg))
  }

  /** With slider scores, the day's average lies in [0, 10]. */
  lemma DayAverageBounds(m: Block, n: Block, ni: Block)
    requires forall b :: b in [m, n, ni] && b.done ==> InRange(b)
    ensures DayMode(m, n, ni).1.Some? ==> 0.0 <= DayMode(m, n, ni).1.value <= 10.0
  {
    var xs := [AvgScore(m), AvgScore(n), AvgScore(ni)];
    var s := Present(xs);
    PresentBounded(xs);
    if s != [] {
      var avg := DayMode(m, n, ni).1.value;
      var c := |s| as real;
      MeanBounds(avg, c, Sum(s));
    }
  }

  /** A mean of values in [0, 10] lies in [0, 10]. */
  lemma MeanBounds(avg: real, c: real, total: real)
    requires c > 0.0 && avg * c == total && 0.0 <= total <= 10.0 * c
    ensures 0.0 <= avg <= 10.0
  {
  }

  // ---------------------------------------------------------------------
  // The day entries

  datatype Part = Morning | Noon | Night

  datatype Entry = Entry(date: string, createdAt: string, updatedAt: string,
                         morning: Block, noon: Block, night: Block)
  {
    function Get(p: Part): Block {
      match p
      case Morning => morning
      case Noon => noon
      case Night => night
    }

    function Mode(): string {
      DayMode(morning, noon, night).0
    }
  }

  /** `find_entry(data, dkey)`: the position of the first entry dated `dkey`. */
  function FindEntry(entries: seq<Entry>, dkey: string): (r: Option<nat>)
    ensures r.Some? ==> r.value < |entries| && entries[r.value].date == dkey
    ensures r.Some? ==> forall k :: 0 <= k < r.value ==> entries[k].date != dkey
    ensures r.None? <==> forall k :: 0 <= k < |entries| ==> entries[k].date != dkey
  {
    if entries == [] then None
    else if entries[0].date == dkey then Some(0)
    else match FindEntry(entries[1..], dkey)
      case None => None
      case Some(i) => Some(i + 1)
  }

  /** No two entries share a date. */
  ghost predicate UniqueDates(entries: seq<Entry>) {
    forall i, j :: 0 <= i < j < |entries| ==> entries[i].date != entries[j].date
  }

  class EnergyLog {
    var entries: seq<Entry>

    constructor()
      ensures entries == []
    {
      entries := [];
    }

    /**
     * `get_or_create_today()`: today's entry, appended with three empty
     * check-ins only when no entry has today's date. Dates stay unique.
     */
    method GetOrCreateToday(today: string, now: string) returns (i: nat)
      modifies this
      ensures i < |entries| && entries[i].date == today
      ensures FindEntry(entries, today) == Some(i)
      ensures old(FindEntry(entries, today)).Some? ==> entries == old(entries)
      ensures old(FindEntry(entries, today)).None? ==>
        entries == old(entries) + [Entry(today, now, now, EmptyBlock, EmptyBlock, EmptyBlock)]
      ensures old(UniqueDates(entries)) ==> UniqueDates(entries)
    {
      var found := FindEntry(entries, today);
      if found.Some? {
        return found.value;
      }
      var e := Entry(today, now, now, EmptyBlock, EmptyBlock, EmptyBlock);
      entries := entries + [e];
      i := |entries| - 1;
      assert forall k :: 0 <= k < i ==> entries[k] == old(entries)[k];
    }

    /**
     * Saving a check-in: that part becomes a done check-in with the three
     * scores and the stripped note; the other parts and entries stay.
     */
    method SavePart(i: nat, p: Part, energy: int, focus: int, mood: int, note: string, now: string)
      requires i < |entries|
      modifies this
      ensures |entries| == old(|entries|)
      ensures forall k :: 0 <= k < |entries| && k != i ==> entries[k] == old(entries[k])
      ensures entries[i].Get(p) == Block(true, Some(energy), Some(focus), Some(mood), Strip(note), now)
      ensures forall q :: q != p ==> entries[i].Get(q) == old(entries[i].Get(q))
      ensures entries[i].date == old(entries[i].date) && entries[i].createdAt == old(entries[i].createdAt)
      ensures entries[i].updatedAt == now
      ensures AvgScore(entries[i].Get(p)) == Some((energy + focus + mood) as real / 3.0)
    {
      var b := Block(true, Some(energy), Some(focus), Some(mood), Strip(note), now);
      var e := entries[i];
      var e' := match p
        case Morning => e.(morning := b, updatedAt := now)
        case Noon => e.(noon := b, updatedAt := now)
        case Night => e.(night := b, updatedAt := now);
      entries := entries[i := e'];
    }

    /** The reset button: all three check-ins emptied, so the day is undecided again. */
    method Reset(i: nat, now: string)
      requires i < |entries|
      modifies this
      ensures |entries| == old(|entries|)
      ensures forall k :: 0 <= k < |entries| && k != i ==> entries[k] == old(entries[k])
      ensures forall q :: entries[i].Get(q) == EmptyBlock
      ensures entries[i].date == old(entries[i].date) && entries[i].createdAt == old(entries[i].createdAt)
      ensures entries[i].updatedAt == now
      ensures entries[i].Mode() == "未判定"
    {
      entries := entries[i := entries[i].(morning := EmptyBlock, noon := EmptyBlock, night := EmptyBlock, updatedAt := now)];
    }
  }
}
