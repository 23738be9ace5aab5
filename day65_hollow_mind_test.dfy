/**
 * day65_hollow_mind_test: five questions with options A, B and C.  Every
 * answer adds one to its letter's score; the letter with the highest score
 * picks one of three "shadow" types, ties going to A before B before C.
 * Results can be saved and the ten latest are listed newest first.
 */
module HollowMindTest {

  datatype Letter = A | B | C

  /** How many answers are `l`. */
  function Count(choices: seq<Letter>, l: Letter): (n: nat)
    ensures n <= |choices|
  {
    if choices == [] then 0
    else Count(choices[..|choices| - 1], l) + (if choices[|choices| - 1] == l then 1 else 0)
  }

  /** Each answer is counted under exactly one letter. */
  lemma {:induction false} CountsAddUp(choices: seq<Letter>)
    ensures Count(choices, A) + Count(choices, B) + Count(choices, C) == |choices|
  {
    if choices != [] {
      CountsAddUp(choices[..|choices| - 1]);
    }
  }

  /** The question loop: `scores[choice] += 1` for each answer, starting from all zero. */
  method Tally(choices: seq<Letter>) returns (scores: map<Letter, nat>)
    ensures forall l :: l in scores && scores[l] == Count(choices, l)
    ensures scores[A] + scores[B] + scores[C] == |choices|
  {
    scores := map[A := 0, B := 0, C := 0];
    assert forall l :: l in scores by {
      forall l ensures l in scores { if l.A? {} else if l.B? {} else {} }
    }
    for k := 0 to |choices|
      invariant forall l :: l in scores && scores[l] == Count(choices[..k], l)
    {
      assert choices[..k + 1][..k] == choices[..k];
      var ch := choices[k];
      scores := scores[ch := scores[ch] + 1];
    }
    assert choices[..|choices|] == choices;
    CountsAddUp(choices);
  }

  datatype Shadow = QuietObserver | MaskedPerformer | LostAtBorder

  function Name(s: Shadow): string {
    match s
    case QuietObserver => "静かな観測者"
    case MaskedPerformer => "仮面の演者"
    case LostAtBorder => "境界の迷い子"
  }

  function LetterOf(s: Shadow): Letter {
    match s
    case QuietObserver => A
    case MaskedPerformer => B
    case LostAtBorder => C
  }

  /** `diagnose(scores)`: A when it is not below B and C, else B when it is not below A and C, else C. */
  function Diagnose(a: int, b: int, c: int): (s: Shadow)
    ensures s == QuietObserver <==> a >= b && a >= c
    ensures s == MaskedPerformer <==> (a < b || a < c) && b >= a && b >= c
    ensures s == LostAtBorder <==> c > a && c > b
  {
    if a >= b && a >= c then QuietObserver
    else if b >= a && b >= c then MaskedPerformer
    else LostAtBorder
  }

  /** The type names a letter with the highest score, and the earliest such letter. */
  lemma DiagnoseMaximal(a: int, b: int, c: int)
    ensures var l := LetterOf(Diagnose(a, b, c));
      var top := if l == A then a else if l == B then b else c;
      top >= a && top >= b && top >= c
      && (l == B ==> a < b)
      && (l == C ==> a < c && b < c)
  {
  }

  /** A saved result: time, type name and the answer per question. */
  datatype Saved = Saved(time: string, shadow: string, answers: seq<Letter>)

  class Results {
    var results: seq<Saved>

    constructor(results0: seq<Saved>)
      ensures results == results0
    {
      results := results0;
    }

    /** "保存する": appends the shown result with the current answers. */
    method Save(now: string, s: Shadow, answers: seq<Letter>)
      modifies this
      ensures results == old(results) + [Saved(now, Name(s), answers)]
    {
      results := results + [Saved(now, Name(s), answers)];
    }
  }

  /** `reversed(results[-10:])`: the ten latest results, newest first. */
  function Latest(results: seq<Saved>): (r: seq<Saved>)
    ensures |r| == if |results| < 10 then |results| else 10
    ensures forall k :: 0 <= k < |r| ==> r[k] == results[|results| - 1 - k]
  {
    var tail := if |results| <= 10 then results else results[|results| - 10..];
    seq(|tail|, k requires 0 <= k < |tail| => tail[|tail| - 1 - k])
  }

  /** A result saved last is listed first. */
  lemma SavedShownFirst(results: seq<Saved>, x: Saved)
    ensures Latest(results + [x])[0] == x
  {
  }
}
