/**
 * day18_simple_game: a one-button runner.  The player is a ball that jumps
 * from the ground; obstacles appear at the right edge and slide left, faster
 * as the score grows.  Each frame applies gravity, clamps the ball to the
 * screen, may spawn an obstacle, moves and prunes the obstacles, scores a
 * point and tests for a collision.
 *
 * Besides the frame step itself, the model proves an invariant of the game:
 * obstacles stay ordered and at least 150 px apart (25 frames at 6 px or
 * more a frame), so no more than six are ever on screen.
 */
module SimpleGame {
  import opened PyList

  const GroundY: int := 250
  const OnGroundThreshold: int := 248
  const Ceiling: int := 20
  const JumpVelocity: int := -12
  const StartY: int := 200
  const StartSinceSpawn: nat := 100
  const SpawnX: int := 800
  const SpawnInterval: nat := 25
  /** Obstacles at or left of this x are dropped. */
  const RemoveX: int := -40
  const BaseSpeed: int := 6
  const SpeedStep: nat := 500
  /** The player's column and the height above which a touch counts. */
  const PlayerLeft: int := 50
  const PlayerRight: int := 70
  const HitHeight: int := 220

  /** Two spawns are at least `SpawnInterval` frames apart, each moving an obstacle `BaseSpeed` or more. */
  const MinGap: int := SpawnInterval * BaseSpeed

  /** `base_speed`: six pixels a frame, one more for every 500 points. */
  function Speed(score: nat): (d: int)
    ensures d >= BaseSpeed
    ensures score < SpeedStep ==> d == BaseSpeed
    ensures (d - BaseSpeed) * SpeedStep <= score < (d - BaseSpeed + 1) * SpeedStep
  {
    BaseSpeed + score / SpeedStep
  }

  /** The obstacles never slow down as the score grows. */
  lemma SpeedMonotone(s1: nat, s2: nat)
    requires s1 <= s2
    ensures Speed(s1) <= Speed(s2)
  {
    assert (Speed(s1) - BaseSpeed) * SpeedStep <= s2 < (Speed(s2) - BaseSpeed + 1) * SpeedStep;
  }

  /**
   * Gravity, then the clamp to [`Ceiling`, `GroundY`]: the ball moves by the
   * increased velocity unless that leaves the screen, in which case it stops
   * at the edge with no velocity.
   */
  function Fall(y: int, v: int): (r: (int, int))
    ensures Ceiling <= r.0 <= GroundY
    ensures Ceiling <= y + v + 1 <= GroundY ==> r == (y + v + 1, v + 1)
    ensures y + v + 1 < Ceiling ==> r == (Ceiling, 0)
    ensures y + v + 1 > GroundY ==> r == (GroundY, 0)
  {
    var v1 := v + 1;
    var y1 := y + v1;
    if y1 < Ceiling then (Ceiling, 0)
    else if y1 > GroundY then (GroundY, 0)
    else (y1, v1)
  }

  /** A spawn needs the interval to have passed and the random test to pass. */
  predicate Spawns(sinceSpawn: nat, lucky: bool) {
    sinceSpawn + 1 >= SpawnInterval && lucky
  }

  function Alive(): int -> bool { x => x > RemoveX }

  /** Every obstacle moved left by `d`. */
  function Shift(xs: seq<int>, d: int): seq<int> {
    seq(|xs|, i requires 0 <= i < |xs| => xs[i] - d)
  }

  /** The obstacle list after one frame: maybe a new one at the right edge, all moved, the gone ones dropped. */
  function Advance(xs: seq<int>, spawned: bool, d: int): (r: seq<int>)
    ensures OnScreen(r)
    ensures |r| <= |xs| + (if spawned then 1 else 0)
    ensures forall k :: 0 <= k < |r| ==> r[k] + d in xs || (spawned && r[k] + d == SpawnX)
  {
    var all := xs + (if spawned then [SpawnX] else []);
    var moved := Shift(all, d);
    var r := Filter(moved, Alive());
    forall k | 0 <= k < |r| ensures r[k] + d in xs || (spawned && r[k] + d == SpawnX) {
      var i :| 0 <= i < |moved| && moved[i] == r[k];
      assert all[i] == r[k] + d;
      if i < |xs| {
        assert all[i] == xs[i];
      }
    }
    r
  }

  /** Is the ball low enough while an obstacle is in its column? */
  predicate Hits(xs: seq<int>, y: int) {
    exists i :: 0 <= i < |xs| && PlayerLeft < xs[i] < PlayerRight && y > HitHeight
  }

  predicate OnScreen(xs: seq<int>) {
    forall i :: 0 <= i < |xs| ==> RemoveX < xs[i]
  }

  /** Oldest first, and consecutive spawns at least `MinGap` apart. */
  predicate Spaced(xs: seq<int>) {
    forall i, j :: 0 <= i < j < |xs| ==> xs[i] + MinGap <= xs[j]
  }

  /** Every obstacle has moved at least `BaseSpeed` a frame since the last spawn, that frame included. */
  predicate Lead(xs: seq<int>, sinceSpawn: nat) {
    forall i :: 0 <= i < |xs| ==> xs[i] <= SpawnX - BaseSpeed * (sinceSpawn + 1)
  }

  /** Every element of `xs` lies at least `MinGap` right of `x`. */
  predicate LeftOf(x: int, xs: seq<int>) {
    forall j :: 0 <= j < |xs| ==> x + MinGap <= xs[j]
  }

  lemma SpacedTail(xs: seq<int>)
    requires Spaced(xs) && xs != []
    ensures Spaced(xs[1..]) && LeftOf(xs[0], xs[1..])
  {
    var tail := xs[1..];
    forall i, j | 0 <= i < j < |tail| ensures tail[i] + MinGap <= tail[j] {
      assert tail[i] == xs[i + 1] && tail[j] == xs[j + 1];
    }
    forall j | 0 <= j < |tail| ensures xs[0] + MinGap <= tail[j] {
      assert tail[j] == xs[j + 1];
    }
  }

  lemma SpacedCons(x: int, xs: seq<int>)
    requires Spaced(xs) && LeftOf(x, xs)
    ensures Spaced([x] + xs)
  {
    var ys := [x] + xs;
    forall i, j | 0 <= i < j < |ys| ensures ys[i] + MinGap <= ys[j] {
      assert ys[j] == xs[j - 1];
      if i > 0 {
        assert ys[i] == xs[i - 1];
      }
    }
  }

  lemma FilterLeftOf(x: int, xs: seq<int>, keep: int -> bool)
    requires LeftOf(x, xs)
    ensures LeftOf(x, Filter(xs, keep))
  {
    var r := Filter(xs, keep);
    forall j | 0 <= j < |r| ensures x + MinGap <= r[j] {
      var k :| 0 <= k < |xs| && xs[k] == r[j];
    }
  }

  /** Keeping some elements of a spaced list keeps it spaced. */
  lemma {:induction false} FilterSpaced(xs: seq<int>, keep: int -> bool)
    requires Spaced(xs)
    ensures Spaced(Filter(xs, keep))
  {
    if xs != [] {
      SpacedTail(xs);
      FilterSpaced(xs[1..], keep);
      if keep(xs[0]) {
        FilterLeftOf(xs[0], xs[1..], keep);
        SpacedCons(xs[0], Filter(xs[1..], keep));
      }
    }
  }

  /** One frame keeps the obstacles on screen, spaced and led by the spawn counter. */
  lemma AdvanceKeeps(xs: seq<int>, sinceSpawn: nat, lucky: bool, score: nat)
    requires OnScreen(xs) && Spaced(xs) && Lead(xs, sinceSpawn)
    ensures var spawned := Spawns(sinceSpawn, lucky);
      var ys := Advance(xs, spawned, Speed(score));
      OnScreen(ys) && Spaced(ys) && Lead(ys, if spawned then 0 else sinceSpawn + 1)
  {
    var spawned := Spawns(sinceSpawn, lucky);
    var d := Speed(score);
    var since := if spawned then 0 else sinceSpawn + 1;
    var zs := xs + (if spawned then [SpawnX] else []);
    var sh := Shift(zs, d);
    assert Spaced(sh) by {
      forall i, j | 0 <= i < j < |sh| ensures sh[i] + MinGap <= sh[j] {
        assert sh[i] == zs[i] - d && sh[j] == zs[j] - d;
        if j < |xs| {
          assert zs[i] == xs[i] && zs[j] == xs[j];
        } else {
          assert zs[i] == xs[i] && zs[j] == SpawnX;
        }
      }
    }
    assert Lead(sh, since) by {
      forall i | 0 <= i < |sh| ensures sh[i] <= SpawnX - BaseSpeed * (since + 1) {
        assert sh[i] == zs[i] - d;
        if i < |xs| {
          assert zs[i] == xs[i];
        }
      }
    }
    var ys := Filter(sh, Alive());
    FilterSpaced(sh, Alive());
    forall k | 0 <= k < |ys| ensures ys[k] <= SpawnX - BaseSpeed * (since + 1) {
      var m :| 0 <= m < |sh| && sh[m] == ys[k];
    }
  }

  /** Spacing adds up: the k-th obstacle is at least k gaps right of the first. */
  lemma {:induction false} SpreadOut(xs: seq<int>, k: nat)
    requires Spaced(xs) && k < |xs|
    ensures xs[0] + MinGap * k <= xs[k]
  {
    if k > 0 {
      SpreadOut(xs, k - 1);
      assert xs[k - 1] + MinGap <= xs[k];
    }
  }

  /** At most six obstacles fit between the drop line and the spawn edge. */
  lemma FewObstacles(xs: seq<int>, sinceSpawn: nat)
    requires OnScreen(xs) && Spaced(xs) && Lead(xs, sinceSpawn)
    ensures |xs| <= 6
  {
    if xs != [] {
      SpreadOut(xs, |xs| - 1);
      assert RemoveX < xs[0] && xs[|xs| - 1] <= SpawnX;
    }
  }

  class Game {
    var y: int
    var velocity: int
    /** Each obstacle's x, oldest first. */
    var obstacles: seq<int>
    var score: nat
    var over: bool
    var sinceSpawn: nat

    predicate Valid()
      reads this
    {
      Ceiling <= y <= GroundY && OnScreen(obstacles) && Spaced(obstacles) && Lead(obstacles, sinceSpawn)
    }

    /** The session's initial values. */
    constructor()
      ensures Valid()
      ensures y == StartY && velocity == 0 && obstacles == [] && score == 0 && !over
      ensures sinceSpawn == StartSinceSpawn
    {
      y := StartY;
      velocity := 0;
      obstacles := [];
      score := 0;
      over := false;
      sinceSpawn := StartSinceSpawn;
    }

    /** JUMP!: only from the ground and only while the game runs. */
    method Jump()
      requires Valid()
      modifies this
      ensures Valid()
      ensures velocity == if !old(over) && old(y) >= OnGroundThreshold then JumpVelocity else old(velocity)
      ensures y == old(y) && obstacles == old(obstacles) && score == old(score)
      ensures over == old(over) && sinceSpawn == old(sinceSpawn)
    {
      if !over && y >= OnGroundThreshold {
        velocity := JumpVelocity;
      }
    }

    /** One frame; `lucky` is the outcome of the 25% random test. */
    method Step(lucky: bool)
      requires Valid()
      modifies this
      ensures Valid()
      ensures old(over) ==> (y == old(y) && velocity == old(velocity) && obstacles == old(obstacles)
        && score == old(score) && over && sinceSpawn == old(sinceSpawn))
      ensures !old(over) ==> ((y, velocity) == Fall(old(y), old(velocity))
        && obstacles == Advance(old(obstacles), Spawns(old(sinceSpawn), lucky), Speed(old(score)))
        && sinceSpawn == (if Spawns(old(sinceSpawn), lucky) then 0 else old(sinceSpawn) + 1)
        && score == old(score) + 1
        && over == Hits(obstacles, y))
    {
      if over {
        return;
      }
      AdvanceKeeps(obstacles, sinceSpawn, lucky, score);
      ghost var spawned := Spawns(sinceSpawn, lucky);
      ghost var added := obstacles + (if spawned then [SpawnX] else []);
      Gravity();
      sinceSpawn := sinceSpawn + 1;
      var speed := Speed(score);
      if sinceSpawn >= SpawnInterval && lucky {
        obstacles := obstacles + [SpawnX];
        sinceSpawn := 0;
      }
      assert obstacles == added;
      MoveObstacles(speed);
      obstacles := Filter(obstacles, Alive());
      score := score + 1;
      Collide();
    }

    /** Gravity and the clamp to the screen. */
    method Gravity()
      modifies this
      ensures (y, velocity) == Fall(old(y), old(velocity))
      ensures obstacles == old(obstacles) && score == old(score)
      ensures over == old(over) && sinceSpawn == old(sinceSpawn)
    {
      velocity := velocity + 1;
      y := y + velocity;
      if y < Ceiling {
        y := Ceiling;
        velocity := 0;
      }
      if y > GroundY {
        y := GroundY;
        velocity := 0;
      }
    }

    /** Every obstacle's x goes down by `speed`, in place. */
    method MoveObstacles(speed: int)
      modifies this
      ensures obstacles == Shift(old(obstacles), speed)
      ensures y == old(y) && velocity == old(velocity) && score == old(score)
      ensures over == old(over) && sinceSpawn == old(sinceSpawn)
    {
      ghost var before := obstacles;
      var i := 0;
      while i < |obstacles|
        invariant 0 <= i <= |obstacles| == |before|
        invariant forall k :: 0 <= k < i ==> obstacles[k] == before[k] - speed
        invariant forall k :: i <= k < |obstacles| ==> obstacles[k] == before[k]
        invariant y == old(y) && velocity == old(velocity) && score == old(score)
        invariant over == old(over) && sinceSpawn == old(sinceSpawn)
      {
        obstacles := obstacles[i := obstacles[i] - speed];
        i := i + 1;
      }
    }

    /** The collision test: the first obstacle in the player's column while the ball is low ends the game. */
    method Collide()
      requires !over
      modifies this
      ensures over == Hits(obstacles, y)
      ensures y == old(y) && velocity == old(velocity) && obstacles == old(obstacles)
      ensures score == old(score) && sinceSpawn == old(sinceSpawn)
    {
      var j := 0;
      while j < |obstacles|
        invariant 0 <= j <= |obstacles|
        invariant !over
        invariant forall k :: 0 <= k < j ==> !(PlayerLeft < obstacles[k] < PlayerRight && y > HitHeight)
      {
        if PlayerLeft < obstacles[j] < PlayerRight && y > HitHeight {
          over := true;
          break;
        }
        j := j + 1;
      }
    }

    /** Restart, offered only on the game-over screen, puts back the initial values. */
    method Restart()
      requires Valid()
      modifies this
      ensures Valid()
      ensures old(over) ==> (y == StartY && velocity == 0 && obstacles == [] && score == 0 && !over
        && sinceSpawn == StartSinceSpawn)
      ensures !old(over) ==> (y == old(y) && velocity == old(velocity) && obstacles == old(obstacles)
        && score == old(score) && over == old(over) && sinceSpawn == old(sinceSpawn))
    {
      if over {
        y := StartY;
        velocity := 0;
        obstacles := [];
        score := 0;
        over := false;
        sinceSpawn := StartSinceSpawn;
      }
    }
  }

  /** However long a game runs, the screen never holds more than six obstacles. */
  method Run(g: Game, luck: seq<bool>)
    requires g.Valid()
    modifies g
    ensures g.Valid() && |g.obstacles| <= 6
  {
    var t := 0;
    while t < |luck|
      invariant 0 <= t <= |luck|
      invariant g.Valid()
    {
      g.Step(luck[t]);
      t := t + 1;
    }
    FewObstacles(g.obstacles, g.sinceSpawn);
  }
}
