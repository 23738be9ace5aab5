/**
 * Python's `sorted(xs, key=f)` and `sorted(xs, key=f, reverse=True)`: a
 * stable sort by a key under a strict total order on keys.  Stability means
 * that items with equal keys keep their input order, which Python also
 * guarantees for `reverse=True`; that case is the same sort under the
 * flipped order.
 */
module Sorting {
  import PyList

  /** `less` is a strict total order: irreflexive, transitive and total. */
  ghost predicate StrictTotalOrder<K(!new)>(less: (K, K) -> bool) {
    (forall a :: !less(a, a))
    && (forall a, b, c :: less(a, b) && less(b, c) ==> less(a, c))
    && (forall a, b :: a != b ==> less(a, b) || less(b, a))
  }

  /** The order that `reverse=True` sorts by. */
  function Flip<K(!new)>(less: (K, K) -> bool): (K, K) -> bool {
    (a: K, b: K) => less(b, a)
  }

  lemma FlipTotal<K(!new)>(less: (K, K) -> bool)
    requires StrictTotalOrder(less)
    ensures StrictTotalOrder(Flip(less))
  {
    var f := Flip(less);
    assert forall a, b :: f(a, b) == less(b, a);
  }

  /** No item is followed by one with a smaller key. */
  predicate SortedBy<T, K(!new)>(s: seq<T>, key: T -> K, less: (K, K) -> bool) {
    forall i, j :: 0 <= i < j < |s| ==> !less(key(s[j]), key(s[i]))
  }

  /** The items whose key is `k`, in order. */
  function WithKey<T, K(==)>(s: seq<T>, key: T -> K, k: K): (r: seq<T>)
    ensures |r| <= |s|
  {
    if s == [] then []
    else (if key(s[0]) == k then [s[0]] else []) + WithKey(s[1..], key, k)
  }

  /** The input order among items of equal key is kept. */
  ghost predicate Stable<T, K(!new)>(s: seq<T>, r: seq<T>, key: T -> K) {
    forall k :: WithKey(r, key, k) == WithKey(s, key, k)
  }

  /** Filtering by key distributes over concatenation. */
  lemma {:induction false} WithKeyAppend<T, K(!new)>(a: seq<T>, b: seq<T>, key: T -> K, k: K)
    ensures WithKey(a + b, key, k) == WithKey(a, key, k) + WithKey(b, key, k)
  {
    if a != [] {
      var h := if key(a[0]) == k then [a[0]] else [];
      assert (a + b)[0] == a[0] && (a + b)[1..] == a[1..] + b;
      assert WithKey(a + b, key, k) == h + WithKey(a[1..] + b, key, k);
      WithKeyAppend(a[1..], b, key, k);
      assert WithKey(a, key, k) == h + WithKey(a[1..], key, k);
    } else {
      assert a + b == b;
    }
  }

  /** Exchanging two neighbours with different keys leaves every key's items in order. */
  lemma SwapAdjacentWithKey<T, K(!new)>(q: seq<T>, i: int, key: T -> K, k: K)
    requires 0 < i < |q| && key(q[i - 1]) != key(q[i])
    ensures WithKey(q[..i - 1] + [q[i], q[i - 1]] + q[i + 1..], key, k) == WithKey(q, key, k)
  {
    var pre, post := q[..i - 1], q[i + 1..];
    var mid, dim := [q[i - 1], q[i]], [q[i], q[i - 1]];
    SplitAround(q, i);
    var wp, wm, wd, wq := WithKey(pre, key, k), WithKey(mid, key, k), WithKey(dim, key, k), WithKey(post, key, k);
    WithKeyAppend(pre + mid, post, key, k);
    WithKeyAppend(pre, mid, key, k);
    assert WithKey(q, key, k) == wp + wm + wq;
    WithKeyAppend(pre + dim, post, key, k);
    WithKeyAppend(pre, dim, key, k);
    assert WithKey(pre + dim + post, key, k) == wp + wd + wq;
    PairWithKey(q[i - 1], q[i], key, k);
    assert wm == wd;
  }

  lemma SplitAround<T>(q: seq<T>, i: int)
    requires 0 < i < |q|
    ensures q == q[..i - 1] + [q[i - 1], q[i]] + q[i + 1..]
  {
    var w := q[..i - 1] + [q[i - 1], q[i]] + q[i + 1..];
    assert |w| == |q|;
    forall j | 0 <= j < |q| ensures w[j] == q[j] {
      if j < i - 1 {
      } else if j <= i {
      } else {
        assert w[j] == q[i + 1..][j - i - 1];
      }
    }
  }

  /** Sorting a sorted sequence after exchanging two neighbours with different keys restores it. */
  lemma SortUndoesSwap<T, K(!new)>(q: seq<T>, i: int, key: T -> K, less: (K, K) -> bool)
    requires StrictTotalOrder(less) && SortedBy(q, key, less)
    requires 0 < i < |q| && key(q[i - 1]) != key(q[i])
    ensures SortBy(q[..i - 1] + [q[i], q[i - 1]] + q[i + 1..], key, less) == q
  {
    var w := q[..i - 1] + [q[i], q[i - 1]] + q[i + 1..];
    forall k ensures WithKey(q, key, k) == WithKey(w, key, k) {
      SwapAdjacentWithKey(q, i, key, k);
    }
    SortUnique(w, q, key, less);
  }

  /** Sorting after exchanging two neighbours with equal keys keeps the exchange. */
  lemma SortKeepsSwap<T, K(!new)>(q: seq<T>, i: int, key: T -> K, less: (K, K) -> bool)
    requires StrictTotalOrder(less) && SortedBy(q, key, less)
    requires 0 < i < |q| && key(q[i - 1]) == key(q[i])
    ensures var w := q[..i - 1] + [q[i], q[i - 1]] + q[i + 1..]; SortBy(w, key, less) == w
  {
    var w := q[..i - 1] + [q[i], q[i - 1]] + q[i + 1..];
    assert |w| == |q|;
    forall a, b | 0 <= a < b < |w| ensures !less(key(w[b]), key(w[a])) {
      var a' := if a == i - 1 then i else if a == i then i - 1 else a;
      var b' := if b == i - 1 then i else if b == i then i - 1 else b;
      assert w[a] == q[a'] && w[b] == q[b'];
      if a' > b' {
        assert a == i - 1 && b == i;
      }
    }
    SortUnique(w, w, key, less);
  }

  lemma PairWithKey<T, K(!new)>(x: T, y: T, key: T -> K, k: K)
    requires key(x) != key(y)
    ensures WithKey([x, y], key, k) == WithKey([y, x], key, k)
  {
    assert [x, y][1..] == [y] && [y, x][1..] == [x];
    assert [y][1..] == [] && [x][1..] == [];
  }

  /** Puts `x` in front of the first item whose key is not below `x`'s. */
  function Insert<T, K(!new)>(x: T, s: seq<T>, key: T -> K, less: (K, K) -> bool): (r: seq<T>)
    ensures multiset(r) == multiset(s) + multiset{x}
    ensures |r| == |s| + 1
  {
    if s == [] || !less(key(s[0]), key(x)) then [x] + s
    else
      var t := Insert(x, s[1..], key, less);
      assert s == [s[0]] + s[1..];
      [s[0]] + t
  }

  lemma {:induction false} InsertSorted<T, K(!new)>(x: T, s: seq<T>, key: T -> K, less: (K, K) -> bool)
    requires StrictTotalOrder(less)
    requires SortedBy(s, key, less)
    ensures SortedBy(Insert(x, s, key, less), key, less)
    decreases |s|
  {
    var r := Insert(x, s, key, less);
    if s == [] || !less(key(s[0]), key(x)) {
      forall j | 0 <= j < |s| ensures !less(key(s[j]), key(x)) {
        if j > 0 {
          assert !less(key(s[j]), key(s[0]));
        }
      }
      assert forall j :: 1 <= j < |r| ==> r[j] == s[j - 1];
    } else {
      var t := Insert(x, s[1..], key, less);
      InsertSorted(x, s[1..], key, less);
      forall j | 0 <= j < |t| ensures !less(key(t[j]), key(s[0])) {
        assert t[j] in multiset(t);
        if t[j] == x {
        } else {
          assert t[j] in multiset(s[1..]);
          var m :| 0 <= m < |s[1..]| && s[1..][m] == t[j];
          assert s[m + 1] == t[j];
        }
      }
      assert forall j :: 1 <= j < |r| ==> r[j] == t[j - 1];
    }
  }

  /** Inserting `x` adds it in front of every item with the same key. */
  lemma {:induction false} InsertWithKey<T, K(!new)>(x: T, s: seq<T>, key: T -> K, less: (K, K) -> bool, k: K)
    requires forall a :: !less(a, a)
    ensures WithKey(Insert(x, s, key, less), key, k)
         == (if key(x) == k then [x] else []) + WithKey(s, key, k)
    decreases |s|
  {
    if s == [] || !less(key(s[0]), key(x)) {
      assert ([x] + s)[1..] == s;
    } else {
      var t := Insert(x, s[1..], key, less);
      InsertWithKey(x, s[1..], key, less, k);
      assert ([s[0]] + t)[1..] == t;
      assert key(s[0]) != key(x);
      var hx: seq<T> := if key(x) == k then [x] else [];
      var h0: seq<T> := if key(s[0]) == k then [s[0]] else [];
      var w := WithKey(s[1..], key, k);
      assert WithKey([s[0]] + t, key, k) == h0 + (hx + w);
      assert WithKey(s, key, k) == h0 + w;
      assert h0 == [] || hx == [];
      assert h0 + (hx + w) == hx + (h0 + w);
    }
  }

  /** `sorted(s, key=key)` under the order `less`. */
  function SortBy<T, K(!new)>(s: seq<T>, key: T -> K, less: (K, K) -> bool): (r: seq<T>)
    requires StrictTotalOrder(less)
    ensures multiset(r) == multiset(s) && |r| == |s|
    ensures SortedBy(r, key, less)
    ensures Stable(s, r, key)
  {
    if s == [] then []
    else
      var t := SortBy(s[1..], key, less);
      InsertSorted(s[0], t, key, less);
      forall k ensures WithKey(Insert(s[0], t, key, less), key, k) == WithKey(s, key, k) {
        InsertWithKey(s[0], t, key, less, k);
      }
      assert s == [s[0]] + s[1..];
      Insert(s[0], t, key, less)
  }

  /** A sorted, stable permutation is unique: any one equals `SortBy`. */
  lemma {:induction false} SortUnique<T, K(!new)>(s: seq<T>, r: seq<T>, key: T -> K, less: (K, K) -> bool)
    requires StrictTotalOrder(less)
    requires SortedBy(r, key, less) && Stable(s, r, key)
    ensures r == SortBy(s, key, less)
  {
    var q := SortBy(s, key, less);
    SortedStableEqual(r, q, key, less);
  }

  /** Two sorted sequences with the same items per key are equal. */
  lemma {:induction false} SortedStableEqual<T, K(!new)>(r: seq<T>, q: seq<T>, key: T -> K, less: (K, K) -> bool)
    requires StrictTotalOrder(less)
    requires SortedBy(r, key, less) && SortedBy(q, key, less)
    requires forall k :: WithKey(r, key, k) == WithKey(q, key, k)
    ensures r == q
    decreases |r| + |q|
  {
    if r == [] || q == [] {
      if r != [] {
        WithKeyHead(r, key);
        assert false;
      } else if q != [] {
        WithKeyHead(q, key);
        assert false;
      }
    } else {
      var a, b := key(r[0]), key(q[0]);
      WithKeyHead(r, key);
      WithKeyHead(q, key);
      if a != b {
        if less(a, b) {
          // r[0] has key a, so q has an item with key a, which comes after q[0]
          var j := WithKeyIndex(q, key, a);
          assert false;
        } else {
          var j := WithKeyIndex(r, key, b);
          assert false;
        }
      }
      assert r[0] == q[0] by {
        assert WithKey(r, key, a)[0] == r[0];
        assert WithKey(q, key, a)[0] == q[0];
      }
      forall k ensures WithKey(r[1..], key, k) == WithKey(q[1..], key, k) {
        assert WithKey(r, key, k) == WithKey(q, key, k);
        assert WithKey(r, key, k) == (if a == k then [r[0]] else []) + WithKey(r[1..], key, k);
        assert WithKey(q, key, k) == (if a == k then [q[0]] else []) + WithKey(q[1..], key, k);
        if k == a {
          assert WithKey(r, key, k)[1..] == WithKey(r[1..], key, k);
          assert WithKey(q, key, k)[1..] == WithKey(q[1..], key, k);
        } else {
          assert WithKey(r, key, k) == WithKey(r[1..], key, k);
          assert WithKey(q, key, k) == WithKey(q[1..], key, k);
        }
      }
      SortedTail(r, key, less);
      SortedTail(q, key, less);
      SortedStableEqual(r[1..], q[1..], key, less);
      assert r == [r[0]] + r[1..];
      assert q == [q[0]] + q[1..];
    }
  }

  lemma WithKeyHead<T, K(!new)>(s: seq<T>, key: T -> K)
    requires s != []
    ensures WithKey(s, key, key(s[0])) == [s[0]] + WithKey(s[1..], key, key(s[0]))
  {
  }

  lemma SortedTail<T, K(!new)>(s: seq<T>, key: T -> K, less: (K, K) -> bool)
    requires s != [] && SortedBy(s, key, less)
    ensures SortedBy(s[1..], key, less)
  {
    forall i, j | 0 <= i < j < |s[1..]| ensures !less(key(s[1..][j]), key(s[1..][i])) {
      assert s[1..][j] == s[j + 1] && s[1..][i] == s[i + 1];
    }
  }

  /** An item with key `k` exists when `WithKey` is non-empty. */
  lemma {:induction false} WithKeyIndex<T, K(!new)>(s: seq<T>, key: T -> K, k: K) returns (j: nat)
    requires WithKey(s, key, k) != []
    ensures j < |s| && key(s[j]) == k
  {
    if key(s[0]) == k {
      j := 0;
    } else {
      var j' := WithKeyIndex(s[1..], key, k);
      j := j' + 1;
    }
  }

  // ---------------------------------------------------------------------
  // Key orders used by the apps

  function IntLess(): (int, int) -> bool {
    (a: int, b: int) => a < b
  }

  lemma IntLessTotal()
    ensures StrictTotalOrder(IntLess())
  {
  }

  /** Python's `<` on `str`: code-point lexicographic order. */
  predicate StrLess(a: string, b: string) {
    if a == [] then b != []
    else if b == [] then false
    else if a[0] != b[0] then a[0] < b[0]
    else StrLess(a[1..], b[1..])
  }

  function StrOrder(): (string, string) -> bool {
    (a: string, b: string) => StrLess(a, b)
  }

  lemma {:induction false} StrLessIrreflexive(a: string)
    ensures !StrLess(a, a)
  {
    if a != [] { StrLessIrreflexive(a[1..]); }
  }

  lemma {:induction false} StrLessTransitive(a: string, b: string, c: string)
    requires StrLess(a, b) && StrLess(b, c)
    ensures StrLess(a, c)
  {
    if a != [] && b != [] && c != [] && a[0] == b[0] && b[0] == c[0] {
      StrLessTransitive(a[1..], b[1..], c[1..]);
    }
  }

  lemma {:induction false} StrLessTotal(a: string, b: string)
    requires a != b
    ensures StrLess(a, b) || StrLess(b, a)
  {
    if a != [] && b != [] && a[0] == b[0] {
      assert a == [a[0]] + a[1..] && b == [b[0]] + b[1..];
      StrLessTotal(a[1..], b[1..]);
    }
  }

  lemma StrOrderTotal()
    ensures StrictTotalOrder(StrOrder())
  {
    var o := StrOrder();
    forall a ensures !o(a, a) { StrLessIrreflexive(a); }
    forall a, b, c | o(a, b) && o(b, c) ensures o(a, c) { StrLessTransitive(a, b, c); }
    forall a, b | a != b ensures o(a, b) || o(b, a) { StrLessTotal(a, b); }
  }

  /** Python's `<` on 2-tuples: compare the first items, then the second. */
  function PairOrder<A(==), B>(l1: (A, A) -> bool, l2: (B, B) -> bool): ((A, B), (A, B)) -> bool {
    (p: (A, B), q: (A, B)) => l1(p.0, q.0) || (p.0 == q.0 && l2(p.1, q.1))
  }

  lemma PairOrderTotal<A(!new), B(!new)>(l1: (A, A) -> bool, l2: (B, B) -> bool)
    requires StrictTotalOrder(l1) && StrictTotalOrder(l2)
    ensures StrictTotalOrder(PairOrder(l1, l2))
  {
    var o := PairOrder(l1, l2);
    assert forall p: (A, B), q: (A, B) :: o(p, q) == (l1(p.0, q.0) || (p.0 == q.0 && l2(p.1, q.1)));
    forall p: (A, B), q: (A, B) | p != q ensures o(p, q) || o(q, p) {
      if p.0 == q.0 { assert p.1 != q.1; }
    }
  }

  /** In a sorted `h + rest`, nothing in `rest` sorts before anything in `h`. */
  lemma BagRestNotBefore<T, K(!new)>(h: seq<T>, rest: seq<T>, key: T -> K, less: (K, K) -> bool)
    requires SortedBy(h + rest, key, less)
    ensures forall x :: x in multiset(rest) ==> forall k :: 0 <= k < |h| ==> !less(key(x), key(h[k]))
  {
    var r := h + rest;
    forall x | x in multiset(rest) ensures forall k :: 0 <= k < |h| ==> !less(key(x), key(h[k])) {
      var j :| 0 <= j < |rest| && rest[j] == x;
      assert r[|h| + j] == x;
      forall k | 0 <= k < |h| ensures !less(key(x), key(h[k])) {
        assert r[k] == h[k];
      }
    }
  }


  /**
   * `sorted(...)[:n]`: the first `n` of a sorted permutation are sorted,
   * are a sub-bag of the input, and rank no lower than any input item left
   * out (counting copies: a second copy left out ranks no higher either).
   */
  lemma TakeSorted<T, K(!new)>(s: seq<T>, r: seq<T>, key: T -> K, less: (K, K) -> bool, n: int)
    requires multiset(r) == multiset(s) && SortedBy(r, key, less)
    ensures var h := PyList.Take(r, n);
      SortedBy(h, key, less)
      && multiset(h) <= multiset(s)
      && (forall k :: 0 <= k < |h| ==> h[k] in s)
      && (forall x :: x in multiset(s) - multiset(h) ==> forall k :: 0 <= k < |h| ==> !less(key(x), key(h[k])))
      && (forall x :: x in s && x !in h ==> forall k :: 0 <= k < |h| ==> !less(key(x), key(h[k])))
  {
    var h := PyList.Take(r, n);
    var m := |h|;
    var rest := r[m..];
    assert h == r[..m];
    assert r == h + rest;
    assert multiset(s) - multiset(h) == multiset(rest);
    forall k | 0 <= k < m ensures h[k] in s {
      assert h[k] in multiset(s);
    }
    BagRestNotBefore(h, rest, key, less);
    forall x | x in s && x !in h ensures forall k :: 0 <= k < m ==> !less(key(x), key(h[k])) {
      assert x in multiset(s) - multiset(h);
    }
  }

  /** Filtering a sorted list keeps it sorted. */
  lemma {:induction false} FilterSorted<T, K(!new)>(s: seq<T>, keep: T -> bool, key: T -> K, less: (K, K) -> bool)
    requires SortedBy(s, key, less)
    ensures SortedBy(PyList.Filter(s, keep), key, less)
  {
    if s != [] {
      FilterSorted(s[1..], keep, key, less);
      var t := PyList.Filter(s[1..], keep);
      forall k | 0 <= k < |t| ensures !less(key(t[k]), key(s[0])) {
        var j :| 0 <= j < |s[1..]| && s[1..][j] == t[k];
        assert s[j + 1] == t[k];
      }
    }
  }

  // ---------------------------------------------------------------------
  // sorted(set(xs))

  predicate Increasing(s: seq<int>) {
    forall i, j :: 0 <= i < j < |s| ==> s[i] < s[j]
  }

  /** `x` placed into an increasing list, unless it is already there. */
  function InsertUnique(x: int, s: seq<int>): (r: seq<int>)
    requires Increasing(s)
    ensures Increasing(r)
    ensures forall v :: v in r <==> v in s || v == x
  {
    if s == [] then [x]
    else if x < s[0] then [x] + s
    else if x == s[0] then s
    else
      var t := InsertUnique(x, s[1..]);
      assert forall v :: v in s <==> v == s[0] || v in s[1..];
      assert forall k :: 0 <= k < |t| ==> s[0] < t[k] by {
        forall k | 0 <= k < |t| ensures s[0] < t[k] {
          assert t[k] in t;
          if t[k] != x {
            var j :| 0 <= j < |s[1..]| && s[1..][j] == t[k];
            assert s[1..][j] == s[j + 1];
          }
        }
      }
      [s[0]] + t
  }

  /** `sorted(set(xs))`: each value once, ascending. */
  function SortedSet(xs: seq<int>): (r: seq<int>)
    ensures Increasing(r) && |r| <= |xs|
    ensures forall v :: v in r <==> v in xs
  {
    if xs == [] then []
    else
      var t := SortedSet(xs[..|xs| - 1]);
      assert forall v :: v in xs <==> v in xs[..|xs| - 1] || v == xs[|xs| - 1] by {
        assert xs == xs[..|xs| - 1] + [xs[|xs| - 1]];
      }
      InsertUniqueLength(xs[|xs| - 1], t);
      InsertUnique(xs[|xs| - 1], t)
  }

  lemma {:induction false} InsertUniqueLength(x: int, s: seq<int>)
    requires Increasing(s)
    ensures |InsertUnique(x, s)| <= |s| + 1
  {
    if s != [] && x > s[0] {
      InsertUniqueLength(x, s[1..]);
    }
  }
}
