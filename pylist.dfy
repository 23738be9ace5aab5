/**
 * Python list operations the apps apply to their stored lists:
 * `xs.index(x)`, `xs.remove(x)` (= `xs.pop(xs.index(x))`), the filtering
 * comprehension `[x for x in xs if keep(x)]` and the slice `xs[:n]`.
 */
module PyList {
  /** `xs.index(x)`: the first position holding `x`. */
  function IndexOf<T(==)>(xs: seq<T>, x: T): (i: nat)
    requires x in xs
    ensures i < |xs| && xs[i] == x
    ensures forall k :: 0 <= k < i ==> xs[k] != x
  {
    if xs[0] == x then 0 else 1 + IndexOf(xs[1..], x)
  }

  /** `xs.remove(x)`: the first occurrence of `x` is dropped. */
  function RemoveFirst<T(==)>(xs: seq<T>, x: T): (r: seq<T>)
    requires x in xs
    ensures |r| == |xs| - 1
    ensures forall k :: 0 <= k < IndexOf(xs, x) ==> r[k] == xs[k]
    ensures forall k :: IndexOf(xs, x) <= k < |r| ==> r[k] == xs[k + 1]
  {
    var i := IndexOf(xs, x);
    xs[..i] + xs[i + 1..]
  }

  /** Removing one occurrence takes exactly one `x` out of the bag of elements. */
  lemma RemoveFirstMultiset<T>(xs: seq<T>, x: T)
    requires x in xs
    ensures multiset(RemoveFirst(xs, x)) == multiset(xs) - multiset{x}
  {
    var i := IndexOf(xs, x);
    assert xs == xs[..i] + [x] + xs[i + 1..];
  }

  /** `[x for x in xs if keep(x)]`. */
  function Filter<T>(xs: seq<T>, keep: T -> bool): (r: seq<T>)
    ensures |r| <= |xs|
    ensures forall k :: 0 <= k < |r| ==> keep(r[k]) && r[k] in xs
  {
    if xs == [] then []
    else if keep(xs[0]) then [xs[0]] + Filter(xs[1..], keep)
    else Filter(xs[1..], keep)
  }

  /** The comprehension keeps exactly the elements that pass, each as often as it occurs. */
  lemma {:induction false} FilterMultiset<T>(xs: seq<T>, keep: T -> bool, x: T)
    ensures multiset(Filter(xs, keep))[x] == if keep(x) then multiset(xs)[x] else 0
  {
    if xs != [] {
      FilterMultiset(xs[1..], keep, x);
      assert xs == [xs[0]] + xs[1..];
    }
  }

  /** The first element kept is the first element that passes. */
  lemma {:induction false} FilterHead<T>(xs: seq<T>, keep: T -> bool)
    requires Filter(xs, keep) != []
    ensures exists i :: 0 <= i < |xs| && xs[i] == Filter(xs, keep)[0] && forall k :: 0 <= k < i ==> !keep(xs[k])
  {
    if !keep(xs[0]) {
      FilterHead(xs[1..], keep);
      var i :| 0 <= i < |xs[1..]| && xs[1..][i] == Filter(xs[1..], keep)[0]
        && forall k :: 0 <= k < i ==> !keep(xs[1..][k]);
      assert xs[i + 1] == Filter(xs, keep)[0];
      forall k | 0 <= k < i + 1 ensures !keep(xs[k]) {
        if k > 0 { assert xs[k] == xs[1..][k - 1]; }
      }
    }
  }

  /** Permuting the list permutes what the comprehension keeps. */
  lemma FilterPerm<T>(a: seq<T>, b: seq<T>, keep: T -> bool)
    requires multiset(a) == multiset(b)
    ensures multiset(Filter(a, keep)) == multiset(Filter(b, keep))
  {
    forall x ensures multiset(Filter(a, keep))[x] == multiset(Filter(b, keep))[x] {
      FilterMultiset(a, keep, x);
      FilterMultiset(b, keep, x);
    }
  }

  /** The comprehension distributes over concatenation, so it keeps the list's order. */
  lemma {:induction false} FilterAppend<T>(a: seq<T>, b: seq<T>, keep: T -> bool)
    ensures Filter(a + b, keep) == Filter(a, keep) + Filter(b, keep)
  {
    if a == [] {
      assert a + b == b;
    } else {
      assert (a + b)[1..] == a[1..] + b;
      FilterAppend(a[1..], b, keep);
    }
  }

  /** Every element passes `keep` or its negation, so the two comprehensions share out the list. */
  lemma {:induction false} FilterComplement<T>(xs: seq<T>, keep: T -> bool, drop: T -> bool)
    requires forall x :: drop(x) == !keep(x)
    ensures |Filter(xs, keep)| + |Filter(xs, drop)| == |xs|
  {
    if xs != [] {
      FilterComplement(xs[1..], keep, drop);
    }
  }

  /** A stricter test keeps no more elements. */
  lemma {:induction false} FilterStricter<T>(xs: seq<T>, p: T -> bool, q: T -> bool)
    requires forall x :: p(x) ==> q(x)
    ensures |Filter(xs, p)| <= |Filter(xs, q)|
  {
    if xs != [] {
      FilterStricter(xs[1..], p, q);
    }
  }

  /** Replacing one element changes the number that pass by at most the two elements' verdicts. */
  lemma FilterUpdateCount<T>(xs: seq<T>, i: int, y: T, keep: T -> bool)
    requires 0 <= i < |xs|
    ensures |Filter(xs[i := y], keep)| == |Filter(xs, keep)| - (if keep(xs[i]) then 1 else 0) + (if keep(y) then 1 else 0)
  {
    var pre, post := xs[..i], xs[i + 1..];
    assert xs == pre + ([xs[i]] + post);
    assert xs[i := y] == pre + ([y] + post);
    FilterAppend(pre, [xs[i]] + post, keep);
    FilterAppend(pre, [y] + post, keep);
    FilterAppend([xs[i]], post, keep);
    FilterAppend([y], post, keep);
    assert ([xs[i]] + post)[1..] == post;
  }

  /** Two comprehensions in a row keep what passes both. */
  lemma {:induction false} FilterTwice<T>(xs: seq<T>, p: T -> bool, q: T -> bool, pq: T -> bool)
    requires forall x :: pq(x) == (p(x) && q(x))
    ensures Filter(Filter(xs, p), q) == Filter(xs, pq)
  {
    if xs != [] {
      FilterTwice(xs[1..], p, q, pq);
    }
  }

  /** A comprehension whose test every element passes keeps the list. */
  lemma {:induction false} FilterAll<T>(xs: seq<T>, p: T -> bool)
    requires forall x :: x in xs ==> p(x)
    ensures Filter(xs, p) == xs
  {
    if xs != [] {
      assert forall x :: x in xs[1..] ==> x in xs;
      FilterAll(xs[1..], p);
    }
  }

  /** A comprehension that keeps as many elements as the list has passed every element. */
  lemma {:induction false} FilterKeepsLength<T>(xs: seq<T>, p: T -> bool)
    requires |Filter(xs, p)| == |xs|
    ensures forall k :: 0 <= k < |xs| ==> p(xs[k])
  {
    if xs != [] {
      if p(xs[0]) {
        FilterKeepsLength(xs[1..], p);
        assert forall k :: 1 <= k < |xs| ==> xs[k] == xs[1..][k - 1];
      }
    }
  }

  /** A comprehension comes out empty exactly when no element passes its test. */
  lemma {:induction false} FilterEmpty<T>(xs: seq<T>, p: T -> bool)
    ensures Filter(xs, p) == [] <==> forall k :: 0 <= k < |xs| ==> !p(xs[k])
  {
    if xs != [] {
      FilterEmpty(xs[1..], p);
      assert forall k :: 1 <= k < |xs| ==> xs[k] == xs[1..][k - 1];
    }
  }

  /** Comprehensions with tests that agree everywhere keep the same elements. */
  lemma {:induction false} FilterSame<T>(xs: seq<T>, p: T -> bool, q: T -> bool)
    requires forall x :: p(x) == q(x)
    ensures Filter(xs, p) == Filter(xs, q)
  {
    if xs != [] {
      FilterSame(xs[1..], p, q);
    }
  }

  /**
   * One more comprehension applied only when `on` holds, as in
   * `if on: out = [x for x in out if p(x)]`: the result keeps what passes
   * `a` and, when on, `p`.
   */
  lemma FilterWhen<T>(xs: seq<T>, a: T -> bool, on: bool, p: T -> bool, b: T -> bool)
    requires forall x :: b(x) == (a(x) && (on ==> p(x)))
    ensures (if on then Filter(Filter(xs, a), p) else Filter(xs, a)) == Filter(xs, b)
  {
    if on {
      FilterTwice(xs, a, p, b);
    } else {
      FilterSame(xs, a, b);
    }
  }

  /** `[x for x in xs if x != v]`. */
  function RemoveAll<T(==)>(xs: seq<T>, v: T): (r: seq<T>)
    ensures v !in r
  {
    if xs == [] then []
    else if xs[0] == v then RemoveAll(xs[1..], v)
    else [xs[0]] + RemoveAll(xs[1..], v)
  }

  /** Every occurrence of `v` goes and every other element stays, as often as it occurred. */
  lemma {:induction false} RemoveAllMultiset<T>(xs: seq<T>, v: T)
    ensures multiset(RemoveAll(xs, v)) == multiset(xs)[v := 0]
  {
    if xs != [] {
      RemoveAllMultiset(xs[1..], v);
      assert xs == [xs[0]] + xs[1..];
    }
  }

  /** `sum(1 for x in boxes if x)`: the number of true entries. */
  function CountTrue(boxes: seq<bool>): (c: nat)
    ensures c <= |boxes|
  {
    if boxes == [] then 0 else CountTrue(boxes[..|boxes| - 1]) + (if boxes[|boxes| - 1] then 1 else 0)
  }

  /** `xs[:n]`. */
  function Take<T>(xs: seq<T>, n: int): (r: seq<T>)
    ensures |r| == if n <= 0 then 0 else if n < |xs| then n else |xs|
    ensures forall k :: 0 <= k < |r| ==> r[k] == xs[k]
  {
    if n <= 0 then [] else if n < |xs| then xs[..n] else xs
  }

  /**
   * `random.shuffle(xs)` as CPython runs it: for i from the end down to 1,
   * x[i] trades places with x[j], j = `randbelow(i + 1)`, given as `draws[i]`.
   */
  method Shuffle<T>(xs: seq<T>, draws: seq<nat>) returns (ys: seq<T>)
    requires |draws| == |xs| && forall i :: 0 < i < |xs| ==> draws[i] <= i
    ensures |ys| == |xs| && multiset(ys) == multiset(xs)
  {
    ys := xs;
    var i := |ys| - 1;
    while i > 0
      invariant -1 <= i < |ys| && |ys| == |xs|
      invariant multiset(ys) == multiset(xs)
    {
      var j := draws[i];
      ys := ys[i := ys[j]][j := ys[i]];
      i := i - 1;
    }
  }
}
