/**
 * day73_memory_game: concentration on a size x size board of picture
 * cards. Two cards are turned face up, then checked: a pair stays face up,
 * anything else is turned back.
 */
module MemoryGame {
  import opened PyText
  import opened PyList

  // ---------------------------------------------------------------------
  // The board

  /** Every position of `picks` names a different card image. */
  predicate DistinctIndices(ix: seq<nat>, bound: nat) {
    (forall k :: 0 <= k < |ix| ==> ix[k] < bound)
    && (forall k, l :: 0 <= k < l < |ix| ==> ix[k] != ix[l])
  }

  /**
   * `make_board(size)`: `random.sample` picks `size * size // 2` of the
   * images (the positions `chosen`), the picks are doubled and
   * `random.shuffle` mixes them with the draws `draws`. None where it
   * raises for lack of images.
   */
  method MakeBoard(size: nat, images: seq<string>, chosen: seq<nat>, draws: seq<nat>) returns (deck: Option<seq<string>>)
    requires |images| >= size * size / 2 ==> |chosen| == size * size / 2 && DistinctIndices(chosen, |images|)
    requires |draws| == 2 * (size * size / 2) && forall i :: 0 < i < |draws| ==> draws[i] <= i
    ensures deck.None? <==> |images| < size * size / 2
    ensures deck.Some? ==> |deck.value| == 2 * (size * size / 2)
    ensures deck.Some? ==> var picks := seq(|chosen|, k requires 0 <= k < |chosen| => images[chosen[k]]);
      multiset(deck.value) == multiset(picks + picks)
  {
    var nPairs := size * size / 2;
    if |images| < nPairs {
      return None;
    }
    var picks := seq(|chosen|, k requires 0 <= k < |chosen| => images[chosen[k]]);
    var cards := Shuffle(picks + picks, draws);
    deck := Some(cards);
  }

  /** Distinct images sampled at distinct positions: each picked image lies on the board exactly twice. */
  lemma PairsOnBoard(images: seq<string>, chosen: seq<nat>, deck: seq<string>, k: int)
    requires DistinctIndices(chosen, |images|)
    requires forall a, b :: 0 <= a < b < |images| ==> images[a] != images[b]
    requires 0 <= k < |chosen|
    requires var picks := seq(|chosen|, k requires 0 <= k < |chosen| => images[chosen[k]]);
      multiset(deck) == multiset(picks + picks)
    ensures multiset(deck)[images[chosen[k]]] == 2
  {
    var picks := seq(|chosen|, k requires 0 <= k < |chosen| => images[chosen[k]]);
    var x := images[chosen[k]];
    assert picks == picks[..k] + [x] + picks[k + 1..];
    forall m | 0 <= m < |picks| && m != k ensures picks[m] != x {
      assert chosen[m] != chosen[k];
    }
    assert x !in picks[..k] && x !in picks[k + 1..];
    assert multiset(picks)[x] == 1;
  }

  /** `rc_to_idx(r, c, size)`: row-major position of a cell. */
  function RcToIdx(r: int, c: int, size: int): (i: int)
    requires 0 <= r < size && 0 <= c < size
    ensures 0 <= i < size * size
    ensures i / size == r && i % size == c
  {
    CellBound(r, c, size);
    r * size + c
  }

  lemma CellBound(r: int, c: int, size: int)
    requires 0 <= r < size && 0 <= c < size
    ensures 0 <= r * size + c < size * size
    ensures (r * size + c) / size == r && (r * size + c) % size == c
  {
    MulMono(r, size - 1, size);
    MulMono(0, r, size);
    assert (size - 1) * size == size * size - size;
    DivUnique(r * size + c, size, r, c);
  }

  /** Euclidean division has one quotient and remainder. */
  lemma DivUnique(i: int, size: int, q: int, m: int)
    requires size > 0 && 0 <= m < size && i == q * size + m
    ensures i / size == q && i % size == m
  {
    var q', m' := i / size, i % size;
    var d := q' - q;
    assert d * size == m - m' by {
      assert q' * size + m' == i;
      assert d * size == q' * size - q * size;
    }
    if d > 0 {
      MulMono(1, d, size);
    } else if d < 0 {
      MulMono(1, -d, size);
    }
  }

  lemma MulMono(a: int, b: int, s: int)
    requires a <= b && s >= 0
    ensures a * s <= b * s
  {
    assert b * s - a * s == (b - a) * s;
  }

  /** Every board position is the index of exactly one cell: the row and column are recovered from it. */
  lemma RcToIdxOnto(i: int, size: int)
    requires size > 0 && 0 <= i < size * size
    ensures 0 <= i / size < size && 0 <= i % size < size
    ensures RcToIdx(i / size, i % size, size) == i
  {
    var q := i / size;
    assert q * size <= i;
    if q >= size {
      MulMono(size, q, size);
    }
  }

  // ---------------------------------------------------------------------
  // The game state

  class Game {
    var size: nat
    var deck: seq<string>
    var matched: seq<bool>
    var faceUp: seq<nat>
    var moves: nat
    var startedAt: real
    var lock: bool

    /** One flag per card; at most two open, unmatched, distinct cards; locked exactly while two are open. */
    ghost predicate Valid()
      reads this
    {
      |matched| == |deck| && |faceUp| <= 2
      && (forall k :: 0 <= k < |faceUp| ==> faceUp[k] < |deck| && !matched[faceUp[k]])
      && (|faceUp| == 2 ==> faceUp[0] != faceUp[1])
      && (lock <==> |faceUp| == 2)
    }

    /** `init_game(size)` on a fresh session, with the board already dealt. */
    constructor(n: nat, board: seq<string>, now: real)
      requires |board| == n * n
      ensures Valid()
      ensures size == n && deck == board && matched == seq(n * n, _ => false)
      ensures faceUp == [] && moves == 0 && startedAt == now && !lock
    {
      size := n;
      deck := board;
      matched := seq(n * n, _ => false);
      faceUp := [];
      moves := 0;
      startedAt := now;
      lock := false;
    }

    /**
     * `init_game(size)` (restart, shuffle or a new board size): `size` is
     * stored first, then the board is dealt; when dealing raises, nothing
     * else is reset.
     */
    method InitGame(n: nat, images: seq<string>, chosen: seq<nat>, draws: seq<nat>, now: real) returns (raised: bool)
      requires n % 2 == 0
      requires |images| >= n * n / 2 ==> |chosen| == n * n / 2 && DistinctIndices(chosen, |images|)
      requires |draws| == 2 * (n * n / 2) && forall i :: 0 < i < |draws| ==> draws[i] <= i
      modifies this
      ensures raised <==> |images| < n * n / 2
      ensures size == n
      ensures raised ==> (deck == old(deck) && matched == old(matched) && faceUp == old(faceUp)
                          && moves == old(moves) && startedAt == old(startedAt) && lock == old(lock))
      ensures !raised ==> (Valid() && |deck| == n * n && matched == seq(n * n, _ => false)
                           && faceUp == [] && moves == 0 && startedAt == now && !lock)
    {
      size := n;
      var board := MakeBoard(n, images, chosen, draws);
      if board.None? {
        return true;
      }
      assert n * n == 2 * (n * n / 2) by {
        assert n * n == 2 * ((n / 2) * n);
      }
      deck := board.value;
      matched := seq(n * n, _ => false);
      faceUp := [];
      moves := 0;
      startedAt := now;
      lock := false;
      return false;
    }

    /** `all_matched()`: the board is cleared. */
    predicate AllMatched()
      reads this
    {
      forall k :: 0 <= k < |matched| ==> matched[k]
    }

    /** `can_click(i)`: not locked, not matched, not already open, fewer than two open. */
    predicate CanClick(i: nat)
      requires i < |matched|
      reads this
    {
      !lock && !matched[i] && i !in faceUp && |faceUp| < 2
    }

    /** A cleared board accepts no click. */
    lemma ClearedBoardIsClosed(i: nat)
      requires i < |matched| && AllMatched()
      ensures !CanClick(i)
    {
    }

    /** `handle_click(i)`: a clickable card opens; the second open card counts a move and locks the board. */
    method HandleClick(i: nat)
      requires Valid() && i < |deck|
      modifies this
      ensures Valid()
      ensures old(CanClick(i)) ==> faceUp == old(faceUp) + [i]
      ensures !old(CanClick(i)) ==> faceUp == old(faceUp)
      ensures moves == old(moves) + (if old(CanClick(i)) && |faceUp| == 2 then 1 else 0)
      ensures lock <==> |faceUp| == 2
      ensures matched == old(matched) && deck == old(deck) && size == old(size) && startedAt == old(startedAt)
    {
      if !CanClick(i) {
        return;
      }
      faceUp := faceUp + [i];
      if |faceUp| == 2 {
        moves := moves + 1;
        lock := true;
      }
    }

    /**
     * `evaluate_opened()`: with two cards open, both become matched iff
     * their images are equal, and either way both are turned away; the lock
     * is always released. Matched flags only ever turn on.
     */
    method EvaluateOpened()
      requires Valid()
      modifies this
      ensures Valid()
      ensures deck == old(deck) && moves == old(moves) && size == old(size) && startedAt == old(startedAt)
      ensures !lock
      ensures faceUp == if old(|faceUp|) == 2 then [] else old(faceUp)
      ensures old(IsPair()) ==> matched == old(matched[faceUp[0] := true][faceUp[1] := true])
      ensures !old(IsPair()) ==> matched == old(matched)
      ensures forall k :: 0 <= k < |matched| && old(matched)[k] ==> matched[k]
    {
      if |faceUp| != 2 {
        lock := false;
        return;
      }
      var a, b := faceUp[0], faceUp[1];
      if deck[a] == deck[b] {
        matched := matched[a := true][b := true];
        faceUp := [];
        lock := false;
      } else {
        faceUp := [];
        lock := false;
      }
    }

    /** Two cards are open and show the same image. */
    predicate IsPair()
      requires Valid()
      reads this
    {
      |faceUp| == 2 && deck[faceUp[0]] == deck[faceUp[1]]
    }

    /** `card_image_path(i)`: the face iff the card is matched or open, else the back. */
    function CardImagePath(i: nat, back: string): (p: string)
      requires i < |matched| && i < |deck|
      reads this
      ensures (matched[i] || i in faceUp) ==> p == deck[i]
      ensures !(matched[i] || i in faceUp) ==> p == back
    {
      if matched[i] || i in faceUp then deck[i] else back
    }
  }
}
