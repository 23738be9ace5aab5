/**
 * day46_thanks_2025: three thanks for the year, received once.  A log holds
 * up to three stripped, non-blank thanks and a note.  The form is offered
 * only while the current year has no log, and a submission with every
 * field blank is refused, so each year receives at most one log.  Past
 * years are listed newest year first.
 */
module ThanksYear {
  import opened PyText
  import opened PyList
  import opened Sorting

  /** A log keeps this many thanks at most. */
  const MaxThanks: int := 3

  datatype ThanksLog = ThanksLog(id: string, year: int, thanks: seq<string>, note: string, createdAt: string)

  function Filled(): string -> bool { x => !IsBlank(x) }

  /**
   * `[x.strip() for x in thanks if x and x.strip()]`: an empty text is
   * blank too, so the test is "not blank".  The result is the kept entries,
   * stripped, in order.
   */
  function Cleaned(thanks: seq<string>): (clean: seq<string>)
    ensures |clean| == |Filter(thanks, Filled())|
    ensures forall k :: 0 <= k < |clean| ==> clean[k] == Strip(Filter(thanks, Filled())[k])
    ensures forall k :: 0 <= k < |clean| ==> !IsBlank(clean[k]) && Strip(clean[k]) == clean[k]
  {
    if thanks == [] then []
    else
      var rest := Cleaned(thanks[1..]);
      if IsBlank(thanks[0]) then rest
      else
        StripIdempotent(thanks[0]);
        [Strip(thanks[0])] + rest
  }

  /** Nothing survives the cleaning exactly when every entry is blank. */
  lemma CleanedEmpty(thanks: seq<string>)
    ensures Cleaned(thanks) == [] <==> forall k :: 0 <= k < |thanks| ==> IsBlank(thanks[k])
  {
    FilterEmpty(thanks, Filled());
  }

  /** `ThanksLog.new`: at most three cleaned thanks, the first ones kept, and the stripped note. */
  function NewLog(id: string, year: int, thanks: seq<string>, note: string, createdAt: string): (log: ThanksLog)
    ensures log.id == id && log.year == year && log.createdAt == createdAt
    ensures |log.thanks| <= MaxThanks && |log.thanks| <= |Cleaned(thanks)|
    ensures log.thanks == Cleaned(thanks)[..|log.thanks|]
    ensures |Cleaned(thanks)| <= MaxThanks ==> log.thanks == Cleaned(thanks)
    ensures forall k :: 0 <= k < |log.thanks| ==> !IsBlank(log.thanks[k]) && Strip(log.thanks[k]) == log.thanks[k]
    ensures log.note == Strip(note) && Strip(log.note) == log.note
  {
    StripIdempotent(note);
    ThanksLog(id, year, Take(Cleaned(thanks), MaxThanks), Strip(note), createdAt)
  }

  function YearIs(year: int): ThanksLog -> bool {
    (x: ThanksLog) => x.year == year
  }

  /** `this_year`: the logs of `year`, in stored order. */
  function ForYear(logs: seq<ThanksLog>, year: int): (r: seq<ThanksLog>)
    ensures forall k :: 0 <= k < |r| ==> r[k].year == year && r[k] in logs
    ensures forall x :: multiset(r)[x] == if x.year == year then multiset(logs)[x] else 0
    ensures r == [] <==> forall k :: 0 <= k < |logs| ==> logs[k].year != year
  {
    FilterEmpty(logs, YearIs(year));
    forall x ensures multiset(Filter(logs, YearIs(year)))[x] == if x.year == year then multiset(logs)[x] else 0 {
      FilterMultiset(logs, YearIs(year), x);
    }
    Filter(logs, YearIs(year))
  }

  /** The comprehension keeps stored order: the year's logs of two lists follow each other. */
  lemma ForYearAppend(a: seq<ThanksLog>, b: seq<ThanksLog>, year: int)
    ensures ForYear(a + b, year) == ForYear(a, year) + ForYear(b, year)
  {
    FilterAppend(a, b, YearIs(year));
  }

  /** No two logs share a year. */
  predicate OnePerYear(logs: seq<ThanksLog>) {
    forall i, j :: 0 <= i < j < |logs| ==> logs[i].year != logs[j].year
  }

  /** Adding a log for a year that has none keeps one log per year. */
  lemma OnePerYearAppend(logs: seq<ThanksLog>, log: ThanksLog)
    requires OnePerYear(logs) && ForYear(logs, log.year) == []
    ensures OnePerYear(logs + [log])
  {
    var all := logs + [log];
    forall i, j | 0 <= i < j < |all| ensures all[i].year != all[j].year {
      assert all[i] == logs[i];
      if j < |logs| {
        assert all[j] == logs[j];
      }
    }
  }

  function YearOf(log: ThanksLog): int { log.year }

  /** The past-years list: every log, by year, newest year first, ties in stored order. */
  function PastYears(logs: seq<ThanksLog>): (r: seq<ThanksLog>)
    ensures multiset(r) == multiset(logs) && |r| == |logs|
    ensures forall i, j :: 0 <= i < j < |r| ==> r[i].year >= r[j].year
    ensures Stable(logs, r, YearOf)
  {
    IntLessTotal();
    FlipTotal(IntLess());
    var r := SortBy(logs, YearOf, Flip(IntLess()));
    assert forall i, j :: 0 <= i < j < |r| ==> !Flip(IntLess())(YearOf(r[j]), YearOf(r[i]));
    r
  }

  /** The save guard: the three fields leave nothing exactly when all three are blank. */
  lemma ThreeBlank(t1: string, t2: string, t3: string)
    ensures Filter([t1, t2, t3], Filled()) == [] <==> IsBlank(t1) && IsBlank(t2) && IsBlank(t3)
  {
    var thanks := [t1, t2, t3];
    FilterEmpty(thanks, Filled());
    assert thanks[0] == t1 && thanks[1] == t2 && thanks[2] == t3;
  }

  class Journal {
    var logs: seq<ThanksLog>

    constructor(loaded: seq<ThanksLog>)
      ensures logs == loaded
    {
      logs := loaded;
    }

    /** The form is offered only while `year` has no log. */
    predicate FormShown(year: int)
      reads this
    {
      ForYear(logs, year) == []
    }

    /** The log shown for a year already received: its first one. */
    function Received(year: int): (r: Option<ThanksLog>)
      reads this
      ensures r.None? <==> FormShown(year)
      ensures r.Some? ==> r.value in logs && r.value.year == year
      ensures r.Some? ==> exists i :: 0 <= i < |logs| && logs[i] == r.value && forall k :: 0 <= k < i ==> logs[k].year != year
    {
      var found := ForYear(logs, year);
      if found == [] then None
      else
        FilterHead(logs, YearIs(year));
        Some(found[0])
    }

    /**
     * The form's submit button.  Without the form nothing happens; with it,
     * three blank thanks are refused and anything else appends a new log.
     */
    method Submit(year: int, t1: string, t2: string, t3: string, note: string, id: string, now: string)
      returns (saved: bool)
      modifies this
      ensures saved <==> old(FormShown(year)) && !(IsBlank(t1) && IsBlank(t2) && IsBlank(t3))
      ensures logs == if saved then old(logs) + [NewLog(id, year, [t1, t2, t3], note, now)] else old(logs)
      ensures saved ==> !FormShown(year)
      ensures OnePerYear(old(logs)) ==> OnePerYear(logs)
    {
      if ForYear(logs, year) != [] {
        return false;
      }
      var thanks := [t1, t2, t3];
      var clean := Filter(thanks, Filled());
      ThreeBlank(t1, t2, t3);
      if clean == [] {
        return false;
      }
      var log := NewLog(id, year, thanks, note, now);
      if OnePerYear(logs) {
        OnePerYearAppend(logs, log);
      }
      logs := logs + [log];
      assert logs[|logs| - 1].year == year;
      saved := true;
    }

    /** The delete-everything button. */
    method ClearAll()
      modifies this
      ensures logs == []
    {
      logs := [];
    }
  }
}
