/**
 * day75_sentai_match: a matching quiz between team names (sentai) and
 * their "-ger" names (ranger) read from a two-column CSV file. The player
 * selects one name on each side; a correct pair leaves the board.
 */
module SentaiMatch {
  import opened PyText
  import opened PyList

  datatype Pair = Pair(sentai: string, ranger: string)

  /** A CSV row as `csv.DictReader` yields it: a missing cell is None. */
  datatype Row = Row(sentai: Option<string>, ranger: Option<string>)

  // ---------------------------------------------------------------------
  // Loading

  /** `(row.get(k) or "").strip()`. */
  function Cell(v: Option<string>): string {
    match v
    case None => []
    case Some(s) => Strip(s)
  }

  /** A row with both cells non-blank after stripping. */
  predicate Usable(row: Row) {
    Cell(row.sentai) != [] && Cell(row.ranger) != []
  }

  /** The pairs of the usable rows, in file order. */
  function KeptPairs(rows: seq<Row>): (ps: seq<Pair>)
    ensures |ps| <= |rows|
    ensures forall k :: 0 <= k < |ps| ==> ps[k].sentai != [] && ps[k].ranger != []
  {
    if rows == [] then []
    else if Usable(rows[0]) then [Pair(Cell(rows[0].sentai), Cell(rows[0].ranger))] + KeptPairs(rows[1..])
    else KeptPairs(rows[1..])
  }

  /** A pair is loaded iff some usable row holds it. */
  lemma {:induction false} KeptPairsMeaning(rows: seq<Row>, p: Pair)
    ensures p in KeptPairs(rows) <==>
      exists k :: 0 <= k < |rows| && Usable(rows[k]) && p == Pair(Cell(rows[k].sentai), Cell(rows[k].ranger))
  {
    if rows != [] {
      KeptPairsMeaning(rows[1..], p);
      if p in KeptPairs(rows[1..]) {
        var k :| 0 <= k < |rows[1..]| && Usable(rows[1..][k]) && p == Pair(Cell(rows[1..][k].sentai), Cell(rows[1..][k].ranger));
        assert rows[k + 1] == rows[1..][k];
      }
      if exists k :: 0 <= k < |rows| && Usable(rows[k]) && p == Pair(Cell(rows[k].sentai), Cell(rows[k].ranger)) {
        var k :| 0 <= k < |rows| && Usable(rows[k]) && p == Pair(Cell(rows[k].sentai), Cell(rows[k].ranger));
        if k > 0 {
          assert rows[1..][k - 1] == rows[k];
        }
      }
    }
  }

  /**
   * `load_pairs`: the header must name both columns, rows with a blank
   * cell are skipped, and at least one pair must remain (None where it
   * raises).
   */
  method LoadPairs(header: seq<string>, rows: seq<Row>) returns (r: Option<seq<Pair>>)
    ensures r.None? <==> "sentai" !in header || "ranger" !in header || KeptPairs(rows) == []
    ensures r.Some? ==> r.value == KeptPairs(rows)
  {
    if "sentai" !in header || "ranger" !in header {
      return None;
    }
    var pairs: seq<Pair> := [];
    for i := 0 to |rows|
      invariant pairs + KeptPairs(rows[i..]) == KeptPairs(rows)
    {
      assert rows[i..][1..] == rows[i + 1..];
      var s := Cell(rows[i].sentai);
      var g := Cell(rows[i].ranger);
      if s == [] || g == [] {
        continue;
      }
      pairs := pairs + [Pair(s, g)];
    }
    assert rows[|rows|..] == [];
    if pairs == [] {
      return None;
    }
    return Some(pairs);
  }

  // ---------------------------------------------------------------------
  // Validation

  function SentaiOf(p: Pair): string { p.sentai }

  function RangerOf(p: Pair): string { p.ranger }

  datatype Problem = SentaiWithManyRangers | RangerWithManySentai | RepeatedRows

  /** Two pairs agree on the side `side` picks and differ on the other. */
  ghost predicate Clash(pairs: seq<Pair>, side: Pair -> string, other: Pair -> string) {
    exists i, j :: 0 <= i < |pairs| && 0 <= j < |pairs| && side(pairs[i]) == side(pairs[j]) && other(pairs[i]) != other(pairs[j])
  }

  /** Some team name is paired with two different rangers. */
  ghost predicate SentaiClash(pairs: seq<Pair>) {
    Clash(pairs, SentaiOf, RangerOf)
  }

  /** Some ranger name is paired with two different teams. */
  ghost predicate RangerClash(pairs: seq<Pair>) {
    Clash(pairs, RangerOf, SentaiOf)
  }

  /** Some row occurs twice. */
  ghost predicate RepeatedRow(pairs: seq<Pair>) {
    exists i, j :: 0 <= i < j < |pairs| && pairs[i] == pairs[j]
  }

  /** The names paired with `x` among the first `n` pairs, `x` sitting on the side `side` picks. */
  ghost function Partners(pairs: seq<Pair>, n: int, side: Pair -> string, other: Pair -> string, x: string): set<string>
    requires 0 <= n <= |pairs|
  {
    set k | 0 <= k < n && side(pairs[k]) == x :: other(pairs[k])
  }

  /** A set has more than one element iff it holds two different ones. */
  lemma MoreThanOne<T>(s: set<T>)
    ensures |s| > 1 <==> exists a, b :: a in s && b in s && a != b
  {
    if |s| > 1 {
      var a :| a in s;
      assert |s - {a}| == |s| - 1;
      var b :| b in s - {a};
    }
    if exists a, b :: a in s && b in s && a != b {
      var a, b :| a in s && b in s && a != b;
      assert {a, b} <= s;
      assert |{a, b}| == 2;
      SubsetSize({a, b}, s);
    }
  }

  lemma SubsetSize<T>(a: set<T>, b: set<T>)
    requires a <= b
    ensures |a| <= |b|
  {
    assert b == a + (b - a);
  }

  /**
   * The `setdefault(...).add(...)` loop of `validate_pairs` for one side:
   * every name on that side maps to the set of names paired with it.
   */
  method PartnerMap(pairs: seq<Pair>, side: Pair -> string, other: Pair -> string) returns (m: map<string, set<string>>)
    ensures forall x :: x in m <==> exists k :: 0 <= k < |pairs| && side(pairs[k]) == x
    ensures forall x :: x in m ==> m[x] == Partners(pairs, |pairs|, side, other, x)
  {
    m := map[];
    for i := 0 to |pairs|
      invariant forall x :: x in m <==> exists k :: 0 <= k < i && side(pairs[k]) == x
      invariant forall x :: x in m ==> m[x] == Partners(pairs, i, side, other, x)
    {
      var x, y := side(pairs[i]), other(pairs[i]);
      assert forall z :: (Partners(pairs, i + 1, side, other, z) ==
                          Partners(pairs, i, side, other, z) + (if x == z then {y} else {}));
      m := m[x := (if x in m then m[x] else {}) + {y}];
    }
  }

  /** `[s for s, rs in m.items() if len(rs) > 1]` is non-empty iff two rows clash. */
  method HasClash(pairs: seq<Pair>, side: Pair -> string, other: Pair -> string) returns (found: bool)
    ensures found <==> Clash(pairs, side, other)
  {
    var m := PartnerMap(pairs, side, other);
    found := exists x :: x in m && |m[x]| > 1;
    ClashFromMap(pairs, m, side, other);
  }

  /** A name with two partners in the map is exactly a clash between two rows. */
  lemma ClashFromMap(pairs: seq<Pair>, m: map<string, set<string>>, side: Pair -> string, other: Pair -> string)
    requires forall x :: x in m ==> m[x] == Partners(pairs, |pairs|, side, other, x)
    requires forall x :: x in m <==> exists k :: 0 <= k < |pairs| && side(pairs[k]) == x
    ensures (exists x :: x in m && |m[x]| > 1) <==> Clash(pairs, side, other)
  {
    if exists x :: x in m && |m[x]| > 1 {
      var x :| x in m && |m[x]| > 1;
      MoreThanOne(m[x]);
      var a, b :| a in m[x] && b in m[x] && a != b;
      var i :| 0 <= i < |pairs| && side(pairs[i]) == x && other(pairs[i]) == a;
      var j :| 0 <= j < |pairs| && side(pairs[j]) == x && other(pairs[j]) == b;
    }
    if Clash(pairs, side, other) {
      var i, j :| 0 <= i < |pairs| && 0 <= j < |pairs| && side(pairs[i]) == side(pairs[j]) && other(pairs[i]) != other(pairs[j]);
      var x := side(pairs[i]);
      assert x in m;
      assert other(pairs[i]) in m[x] && other(pairs[j]) in m[x];
      MoreThanOne(m[x]);
    }
  }

  /** The `seen` loop of `validate_pairs`: the rows met a second time. */
  method RepeatScan(pairs: seq<Pair>) returns (repeated: seq<Pair>)
    ensures repeated != [] <==> RepeatedRow(pairs)
  {
    var seen: set<Pair> := {};
    repeated := [];
    for i := 0 to |pairs|
      invariant seen == set k | 0 <= k < i :: pairs[k]
      invariant repeated != [] <==> exists k, l :: 0 <= k < l < i && pairs[k] == pairs[l]
    {
      if pairs[i] in seen {
        repeated := repeated + [pairs[i]];
      }
      seen := seen + {pairs[i]};
    }
  }

  /**
   * `validate_pairs`: the problems found, in the order reported; the data
   * is fine iff there is none.
   */
  method ValidatePairs(pairs: seq<Pair>) returns (ok: bool, errors: seq<Problem>)
    ensures errors == (if SentaiClash(pairs) then [SentaiWithManyRangers] else [])
                    + (if RangerClash(pairs) then [RangerWithManySentai] else [])
                    + (if RepeatedRow(pairs) then [RepeatedRows] else [])
    ensures ok <==> !SentaiClash(pairs) && !RangerClash(pairs) && !RepeatedRow(pairs)
  {
    var dupSentai := HasClash(pairs, SentaiOf, RangerOf);
    var dupRanger := HasClash(pairs, RangerOf, SentaiOf);
    var repeated := RepeatScan(pairs);
    errors := [];
    if dupSentai {
      errors := errors + [SentaiWithManyRangers];
    }
    if dupRanger {
      errors := errors + [RangerWithManySentai];
    }
    if repeated != [] {
      errors := errors + [RepeatedRows];
    }
    ok := |errors| == 0;
  }

  // ---------------------------------------------------------------------
  // A game

  /** `{p.sentai: p.ranger for p in pool}`: a later pair overwrites an earlier one with the same team. */
  function AnswerMap(pool: seq<Pair>): map<string, string> {
    if pool == [] then map[]
    else AnswerMap(pool[..|pool| - 1])[pool[|pool| - 1].sentai := pool[|pool| - 1].ranger]
  }

  /** Every team of the pool has an answer, and it is the ranger of its last pair. */
  lemma {:induction false} AnswerMapMeaning(pool: seq<Pair>, k: int)
    requires 0 <= k < |pool|
    requires forall l :: k < l < |pool| ==> pool[l].sentai != pool[k].sentai
    ensures pool[k].sentai in AnswerMap(pool) && AnswerMap(pool)[pool[k].sentai] == pool[k].ranger
  {
    if k < |pool| - 1 {
      var q := pool[..|pool| - 1];
      assert q[k] == pool[k];
      AnswerMapMeaning(q, k);
    }
  }

  /** Only teams of the pool have an answer. */
  lemma {:induction false} AnswerMapKeys(pool: seq<Pair>, s: string)
    ensures s in AnswerMap(pool) ==> exists k :: 0 <= k < |pool| && pool[k].sentai == s
  {
    if pool != [] && s in AnswerMap(pool) && pool[|pool| - 1].sentai != s {
      var q := pool[..|pool| - 1];
      AnswerMapKeys(q, s);
      var k :| 0 <= k < |q| && q[k].sentai == s;
      assert pool[k] == q[k];
    }
  }

  /** How many pairs a game asks for: `min(n, len(pool))` when n > 0, else all. */
  function PoolSize(total: nat, n: int): (m: nat)
    ensures m <= total
    ensures n > 0 ==> m == if n < total then n else total
    ensures n <= 0 ==> m == total
  {
    if n > 0 && n < total then n else total
  }

  function Sentais(pool: seq<Pair>): seq<string> {
    seq(|pool|, k requires 0 <= k < |pool| => pool[k].sentai)
  }

  function Rangers(pool: seq<Pair>): seq<string> {
    seq(|pool|, k requires 0 <= k < |pool| => pool[k].ranger)
  }

  /** `draws` can be the draws of `random.shuffle` on `n` elements. */
  predicate ShuffleDraws(draws: seq<nat>, n: nat) {
    |draws| == n && forall i :: 0 < i < n ==> draws[i] <= i
  }

  class Match {
    var pool: seq<Pair>
    var answerMap: map<string, string>
    var remainingSentai: seq<string>
    var remainingRanger: seq<string>
    var selectedSentai: Option<string>
    var selectedRanger: Option<string>
    var matched: nat
    var miss: nat
    var tries: nat
    var lock: bool

    /** Every try is either a match or a miss; the lock is only held inside an evaluation. */
    ghost predicate Valid()
      reads this
    {
      tries == matched + miss && !lock
    }

    /**
     * `new_game(all_pairs, n)`: a shuffled copy of the pairs, cut to
     * `min(n, len)` when n > 0; each side's names shuffled on their own;
     * nothing selected and every counter at 0.
     */
    constructor(allPairs: seq<Pair>, n: int, d1: seq<nat>, d2: seq<nat>, d3: seq<nat>)
      requires ShuffleDraws(d1, |allPairs|)
      requires ShuffleDraws(d2, PoolSize(|allPairs|, n)) && ShuffleDraws(d3, PoolSize(|allPairs|, n))
      ensures Valid()
      ensures |pool| == PoolSize(|allPairs|, n) && multiset(pool) <= multiset(allPairs)
      ensures answerMap == AnswerMap(pool)
      ensures multiset(remainingSentai) == multiset(Sentais(pool))
      ensures multiset(remainingRanger) == multiset(Rangers(pool))
      ensures selectedSentai.None? && selectedRanger.None?
      ensures matched == 0 && miss == 0 && tries == 0 && !lock
    {
      var shuffled := Shuffle(allPairs, d1);
      var m := PoolSize(|allPairs|, n);
      assert shuffled == shuffled[..m] + shuffled[m..];
      var rs := Shuffle(Sentais(shuffled[..m]), d2);
      var rr := Shuffle(Rangers(shuffled[..m]), d3);
      pool := shuffled[..m];
      answerMap := AnswerMap(shuffled[..m]);
      remainingSentai := rs;
      remainingRanger := rr;
      selectedSentai := None;
      selectedRanger := None;
      matched := 0;
      miss := 0;
      tries := 0;
      lock := false;
    }

    /** `pick_sentai(s)`: ignored while locked. */
    method PickSentai(s: string)
      modifies this
      ensures selectedSentai == if old(lock) then old(selectedSentai) else Some(s)
      ensures selectedRanger == old(selectedRanger) && lock == old(lock)
      ensures remainingSentai == old(remainingSentai) && remainingRanger == old(remainingRanger)
      ensures matched == old(matched) && miss == old(miss) && tries == old(tries)
      ensures pool == old(pool) && answerMap == old(answerMap)
    {
      if lock {
        return;
      }
      selectedSentai := Some(s);
    }

    /** `pick_ranger(r)`: ignored while locked. */
    method PickRanger(r: string)
      modifies this
      ensures selectedRanger == if old(lock) then old(selectedRanger) else Some(r)
      ensures selectedSentai == old(selectedSentai) && lock == old(lock)
      ensures remainingSentai == old(remainingSentai) && remainingRanger == old(remainingRanger)
      ensures matched == old(matched) && miss == old(miss) && tries == old(tries)
      ensures pool == old(pool) && answerMap == old(answerMap)
    {
      if lock {
        return;
      }
      selectedRanger := Some(r);
    }

    /** Both sides hold a non-empty selection. */
    predicate BothSelected()
      reads this
    {
      selectedSentai.Some? && selectedSentai.value != [] && selectedRanger.Some? && selectedRanger.value != []
    }

    /** The selection is a pair of the game: the team's answer is the selected ranger. */
    predicate Correct()
      requires BothSelected()
      reads this
    {
      selectedSentai.value in answerMap && answerMap[selectedSentai.value] == selectedRanger.value
    }

    /**
     * `evaluate_selection()`: nothing happens unless both sides are
     * selected; otherwise one more try, counted as a match (both names
     * leave their lists, every copy of them) or a miss (lists unchanged),
     * and the selection is cleared.
     */
    method EvaluateSelection()
      requires Valid()
      modifies this
      ensures Valid()
      ensures pool == old(pool) && answerMap == old(answerMap) && !lock
      ensures !old(BothSelected()) ==>
        (selectedSentai == old(selectedSentai) && selectedRanger == old(selectedRanger)
         && remainingSentai == old(remainingSentai) && remainingRanger == old(remainingRanger)
         && matched == old(matched) && miss == old(miss) && tries == old(tries) && lock == old(lock))
      ensures old(BothSelected()) ==> selectedSentai.None? && selectedRanger.None? && tries == old(tries) + 1
      ensures old(BothSelected()) && old(Correct()) ==>
        (matched == old(matched) + 1 && miss == old(miss)
         && remainingSentai == RemoveAll(old(remainingSentai), old(selectedSentai).value)
         && remainingRanger == RemoveAll(old(remainingRanger), old(selectedRanger).value))
      ensures old(BothSelected()) && !old(Correct()) ==>
        (matched == old(matched) && miss == old(miss) + 1
         && remainingSentai == old(remainingSentai) && remainingRanger == old(remainingRanger))
    {
      if !BothSelected() {
        return;
      }
      var s, r := selectedSentai.value, selectedRanger.value;
      // the lock is taken here and released at the end
      var correct := s in answerMap && answerMap[s] == r;
      if correct {
        matched, remainingSentai, remainingRanger := matched + 1, RemoveAll(remainingSentai, s), RemoveAll(remainingRanger, r);
      } else {
        miss := miss + 1;
      }
      tries, selectedSentai, selectedRanger, lock := tries + 1, None, None, false;
    }

    /** "選択クリア". */
    method ClearSelection()
      modifies this
      ensures selectedSentai.None? && selectedRanger.None? && lock == old(lock)
      ensures remainingSentai == old(remainingSentai) && remainingRanger == old(remainingRanger)
      ensures matched == old(matched) && miss == old(miss) && tries == old(tries)
      ensures pool == old(pool) && answerMap == old(answerMap)
    {
      selectedSentai := None;
      selectedRanger := None;
    }

    /**
     * The clear banner: shown once no team name remains, with the number of
     * pairs asked, the tries and the misses.
     */
    function ClearBanner(): (r: Option<(nat, nat, nat)>)
      reads this
      ensures r.None? <==> remainingSentai != []
      ensures r.Some? ==> r.value.0 == |pool| && r.value.1 == tries && r.value.2 == miss
      ensures r.Some? && Valid() ==> r.value.2 <= r.value.1 && r.value.1 - r.value.2 == matched
    {
      var total: nat := |pool|;
      if |remainingSentai| == 0 then Some((total, tries, miss)) else None
    }
  }
}
