/**
 * day81_routine_check: a list of daily routines and, per date, which of
 * them were ticked.  Opening the page makes sure today has a (possibly
 * empty) map, the checkbox loop records every routine's box for today and
 * counts the ticked ones, and the percentage is `int(completed / total * 100)`.
 * A routine is added only when it is non-empty and new; deleting one removes
 * it from the list and from every date's map.
 */
module RoutineCheck {
  import opened PyNum
  import opened PyList

  /** No routine is listed twice. */
  predicate Distinct(rs: seq<string>) {
    forall i, j :: 0 <= i < j < |rs| ==> rs[i] != rs[j]
  }

  /** The day's map after the checkbox loop set `m[rs[k]] := boxes[k]` in order. */
  function Record(m: map<string, bool>, rs: seq<string>, boxes: seq<bool>): (r: map<string, bool>)
    requires |boxes| == |rs|
    ensures r.Keys == m.Keys + set x | x in rs
  {
    if rs == [] then m
    else
      var n := |rs| - 1;
      Record(m, rs[..n], boxes[..n])[rs[n] := boxes[n]]
  }

  /** The number of routines ticked in the day's map `m`. */
  function CountChecked(rs: seq<string>, m: map<string, bool>): (c: nat)
    requires forall x :: x in rs ==> x in m
    ensures c <= |rs|
  {
    if rs == [] then 0
    else
      var n := |rs| - 1;
      CountChecked(rs[..n], m) + (if m[rs[n]] then 1 else 0)
  }

  /** With distinct routines, each routine's entry is the value of its own box. */
  lemma {:induction false} RecordValue(m: map<string, bool>, rs: seq<string>, boxes: seq<bool>, i: nat)
    requires |boxes| == |rs| && Distinct(rs) && i < |rs|
    ensures Record(m, rs, boxes)[rs[i]] == boxes[i]
  {
    var n := |rs| - 1;
    if i < n {
      RecordValue(m, rs[..n], boxes[..n], i);
      assert rs[..n][i] == rs[i];
    }
  }

  /** A count over routines depends only on the entries of those routines. */
  lemma {:induction false} CountCheckedSame(rs: seq<string>, m: map<string, bool>, m': map<string, bool>)
    requires forall x :: x in rs ==> x in m && x in m' && m[x] == m'[x]
    ensures CountChecked(rs, m) == CountChecked(rs, m')
  {
    if rs != [] {
      var n := |rs| - 1;
      assert forall x :: x in rs[..n] ==> x in rs;
      CountCheckedSame(rs[..n], m, m');
    }
  }

  /**
   * With distinct routines the counter of the loop is the number of routines
   * the day's map records as ticked.
   */
  lemma {:induction false} CompletedMatchesMap(m: map<string, bool>, rs: seq<string>, boxes: seq<bool>)
    requires |boxes| == |rs| && Distinct(rs)
    ensures CountChecked(rs, Record(m, rs, boxes)) == CountTrue(boxes)
  {
    if rs != [] {
      var n := |rs| - 1;
      var r := Record(m, rs, boxes);
      var r' := Record(m, rs[..n], boxes[..n]);
      assert Distinct(rs[..n]);
      CompletedMatchesMap(m, rs[..n], boxes[..n]);
      assert forall x :: x in rs[..n] ==> x != rs[n] by {
        forall x | x in rs[..n] ensures x != rs[n] {
          var j :| 0 <= j < n && rs[..n][j] == x;
        }
      }
      CountCheckedSame(rs[..n], r', r);
      RecordValue(m, rs, boxes, n);
      assert boxes[..|boxes| - 1] == boxes[..n];
    }
  }

  /** `int((completed / total) * 100)`, or 0 with no routines. */
  function Percent(completed: int, total: int): (p: int)
    requires 0 <= completed <= total
    ensures 0 <= p <= 100
    ensures total == 0 || completed == 0 ==> p == 0
    ensures total > 0 && completed == total ==> p == 100
    ensures 0 < completed < total ==> p < 100
  {
    if total > 0 then
      var q := completed as real / total as real;
      FractionBounds(completed as real, total as real);
      Trunc(q * 100.0)
    else 0
  }

  lemma FractionBounds(a: real, b: real)
    requires 0.0 <= a <= b && b > 0.0
    ensures 0.0 <= a / b <= 1.0
    ensures a == 0.0 ==> a / b == 0.0
    ensures a == b ==> a / b == 1.0
    ensures a < b ==> a / b < 1.0
  {
    var q := a / b;
    assert q * b == a;
  }

  /** Every date's map without the entry `name`. */
  function WithoutEverywhere(checked: map<string, map<string, bool>>, name: string): (r: map<string, map<string, bool>>)
    ensures r.Keys == checked.Keys
    ensures forall d :: d in r ==> name !in r[d] && r[d].Keys == checked[d].Keys - {name}
  {
    map d | d in checked :: checked[d] - {name}
  }

  /** The dates still `pending` keep their map; the others have lost `name`. */
  function Pending(checked: map<string, map<string, bool>>, pending: set<string>, name: string): map<string, map<string, bool>> {
    map d | d in checked :: if d in pending then checked[d] else checked[d] - {name}
  }

  lemma PendingAll(checked: map<string, map<string, bool>>, name: string)
    ensures Pending(checked, checked.Keys, name) == checked
  {
  }

  /** Handling one pending date `d` (a no-op when its map lacks `name`). */
  lemma PendingStep(checked: map<string, map<string, bool>>, pending: set<string>, name: string, d: string)
    requires d in pending && pending <= checked.Keys
    ensures var p := Pending(checked, pending, name);
      (if name in p[d] then p[d := p[d] - {name}] else p) == Pending(checked, pending - {d}, name)
  {
    var p := Pending(checked, pending, name);
    if name !in p[d] {
      assert p[d] - {name} == p[d];
    }
  }

  /** The stored routines and the ticks per date. */
  class Tracker {
    var routines: seq<string>
    var checked: map<string, map<string, bool>>

    /** The loaded file (or the empty data when it is missing or unreadable). */
    constructor(routines0: seq<string>, checked0: map<string, map<string, bool>>)
      ensures routines == routines0 && checked == checked0
    {
      routines := routines0;
      checked := checked0;
    }

    /** Today gets an empty map unless it has one already. */
    method OpenToday(today: string)
      modifies this
      ensures today in checked && routines == old(routines)
      ensures old(today in checked) ==> checked == old(checked)
      ensures old(today !in checked) ==> checked == old(checked)[today := map[]]
    {
      if today !in checked {
        checked := checked[today := map[]];
      }
    }

    /**
     * The checkbox loop: each routine's box value `boxes[k]` is written to
     * today's map and the ticked ones are counted.
     */
    method TickLoop(today: string, boxes: seq<bool>) returns (completed: int)
      requires today in checked && |boxes| == |routines|
      modifies this
      ensures routines == old(routines)
      ensures checked == old(checked)[today := Record(old(checked)[today], routines, boxes)]
      ensures completed == CountTrue(boxes)
      ensures forall r :: r in routines ==> r in checked[today]
      ensures 0 <= completed <= |routines|
    {
      ghost var m0 := checked[today];
      completed := 0;
      for k := 0 to |routines|
        invariant today in checked && routines == old(routines)
        invariant checked == old(checked)[today := Record(m0, routines[..k], boxes[..k])]
        invariant completed == CountTrue(boxes[..k])
      {
        assert routines[..k + 1][..k] == routines[..k] && boxes[..k + 1][..k] == boxes[..k];
        var result := boxes[k];
        checked := checked[today := checked[today][routines[k] := result]];
        if result {
          completed := completed + 1;
        }
      }
      assert routines[..|routines|] == routines && boxes[..|routines|] == boxes;
    }

    /** "追加": a non-empty routine that is not yet listed is appended. */
    method Add(newRoutine: string) returns (added: bool)
      modifies this
      ensures added <==> newRoutine != "" && newRoutine !in old(routines)
      ensures routines == if added then old(routines) + [newRoutine] else old(routines)
      ensures checked == old(checked)
      ensures Distinct(old(routines)) ==> Distinct(routines)
    {
      added := newRoutine != "" && newRoutine !in routines;
      if added {
        routines := routines + [newRoutine];
      }
    }

    /** "削除": a listed routine leaves the list and every date's map. */
    method Delete(name: string)
      modifies this
      ensures name in old(routines) ==> routines == RemoveFirst(old(routines), name)
      ensures name in old(routines) ==> checked == WithoutEverywhere(old(checked), name)
      ensures name !in old(routines) ==> routines == old(routines) && checked == old(checked)
    {
      if name in routines {
        var rest := RemoveFirst(routines, name);
        routines := rest;
        ghost var before := checked;
        var dates := checked.Keys;
        PendingAll(before, name);
        while dates != {}
          invariant routines == rest && dates <= before.Keys
          invariant checked == Pending(before, dates, name)
          decreases |dates|
        {
          var d :| d in dates;
          PendingStep(before, dates, name, d);
          if name in checked[d] {
            checked := checked[d := checked[d] - {name}];
          }
          dates := dates - {d};
        }
        assert checked == WithoutEverywhere(before, name);
      }
    }
  }

  /** Deleting from a list without repeats leaves the name nowhere in it. */
  lemma RemoveFirstGone(rs: seq<string>, name: string)
    requires Distinct(rs) && name in rs
    ensures name !in RemoveFirst(rs, name) && Distinct(RemoveFirst(rs, name))
  {
    var r := RemoveFirst(rs, name);
    var i := IndexOf(rs, name);
    forall k | 0 <= k < |r| ensures r[k] != name {
      if k >= i { assert r[k] == rs[k + 1]; }
    }
    forall a, b | 0 <= a < b < |r| ensures r[a] != r[b] {
      var a' := if a < i then a else a + 1;
      var b' := if b < i then b else b + 1;
      assert r[a] == rs[a'] && r[b] == rs[b'];
    }
  }
}
