/**
  The seeded level layout of js/level.js: level width, platform chain, coins
  placed by rejection sampling, finish marker, walls, ground tiles and the jump
  impulse.  Every generator that draws takes the shared SeededRandom object and
  is specified by a pure function of the values of the stream it reads.
*/
module Level {

  import opened Wrappers
  import opened Utils
  import opened Geometry

  // Constants of js/level.js.
  const MIN_Y: real := 100.0
  const EXCLUSION_MARGIN: real := 5.0
  const MIN_COIN_Y_ABOVE_GROUND: real := 30.0
  const MAX_ATTEMPTS: nat := 50

  /** The sizes the generators receive from the session: display scale, level width and ground line. */
  datatype Dims = Dims(scale: real, levelWidth: int, groundY: real) {
    function FinishX(): real { levelWidth as real - 100.0 }
    function MinSpacing(): real { 200.0 * scale }
    function MaxSpacing(): real { 300.0 * scale }
    function Delta(): real { 100.0 * scale }
    function MaxY(): real { groundY - 100.0 }
    function CoinSize(): real { 20.0 * scale }
    /** The height range coins are drawn from, above y = 50. */
    function CoinYSpan(): real { groundY - CoinSize() - MIN_COIN_Y_ABOVE_GROUND - 50.0 }
  }

  // ---------------------------------------------------------------------------
  // Level width (generateLevelFromSeed)
  // ---------------------------------------------------------------------------

  /** The level width drawn first from a fresh stream. */
  function LevelWidth(seed: int): (w: int)
    ensures 1000 <= w <= 5001
    ensures w == 5001 <==> StateAfter(seed, 1) == -1
  {
    var s := StateAfter(seed, 1);
    ValueOne(s);
    RandomBetween(Value(s), 1000, 5000)
  }

  /** A fresh stream that has made one call, and the level width that call gave. */
  method GenerateLevelFromSeed(seed: int) returns (rand: SeededRandom, levelWidth: int)
    ensures fresh(rand)
    ensures rand.s == StateAfter(seed, 1)
    ensures levelWidth == LevelWidth(seed) == RandomBetween(Stream(seed)(0), 1000, 5000)
  {
    rand := new SeededRandom(seed);
    var r := DrawNext(rand, seed, 0);
    levelWidth := RandomBetween(r, 1000, 5000);
  }

  // ---------------------------------------------------------------------------
  // Platform chain (generatePlatformsSeeded)
  //
  // The layout functions read their draws from a stream `rs` (value number i is
  // rs(i)) starting at a cursor, and return the cursor after the last draw they
  // used; the methods run on a SeededRandom whose state is that of Stream(seed)
  // after `cursor` calls.
  // ---------------------------------------------------------------------------

  /** One vertical step: up (smaller y) on a draw above 0.5, down otherwise, turning back at the band's edges. */
  function StepY(up: bool, lastY: real, delta: real, minY: real, maxY: real): real
  {
    if up then (if lastY - delta < minY then lastY + delta else lastY - delta)
    else (if lastY + delta > maxY then lastY - delta else lastY + delta)
  }

  /** The horizontal gap drawn from r, between the least and the greatest spacing. */
  function SpacingX(r: real, d: Dims): real
  {
    r * (d.MaxSpacing() - d.MinSpacing()) + d.MinSpacing()
  }

  function PlatformBody(id: BodyId, x: real, y: real, d: Dims): Body
  {
    Rectangle(id, Platform, x, y, 100.0 * d.scale, 40.0 * d.scale)
  }

  datatype Walk = Walk(platforms: seq<Body>, cursor: nat)

  /** What is left of the walk from draw c, after `lastX, lastY`, with n iterations to go. */
  function PlatformWalk(rs: nat -> real, c: nat, n: nat, lastX: real, lastY: real, id: BodyId, d: Dims): Walk
    decreases n, 0
  {
    if n == 0 then Walk([], c) else PlatformStep(rs, c, n - 1, lastX, lastY, id, d)
  }

  /**
    One iteration, `rest` more after it: the gap is drawn first; an x at or past the
    finish x ends the walk, otherwise the direction is drawn and the platform placed.
  */
  function PlatformStep(rs: nat -> real, c: nat, rest: nat, lastX: real, lastY: real, id: BodyId, d: Dims): Walk
    decreases rest, 1
  {
    var x := lastX + SpacingX(rs(c), d);
    if x >= d.FinishX() then Walk([], c + 1)
    else
      var y := StepY(rs(c + 1) > 0.5, lastY, d.Delta(), MIN_Y, d.MaxY());
      var w := PlatformWalk(rs, c + 2, rest, x, y, id + 1, d);
      Walk([PlatformBody(id, x, y, d)] + w.platforms, w.cursor)
  }

  /** The whole walk of generatePlatformsSeeded, from lastX = 0 and lastY = maxY. */
  function Platforms(rs: nat -> real, c: nat, count: nat, id: BodyId, d: Dims): Walk
  {
    PlatformWalk(rs, c, count, 0.0, d.MaxY(), id, d)
  }

  lemma AppendAssoc(a: seq<Body>, b: seq<Body>, c: seq<Body>)
    ensures a + (b + c) == (a + b) + c
  {
  }

  /** One iteration of the loop on the shared stream; `done` when x reached the finish x. */
  method NextPlatformSeeded(rand: SeededRandom, d: Dims, lastX: real, lastY: real, id: BodyId,
                            ghost seed: int, ghost c0: nat, ghost rest: nat)
    returns (done: bool, x: real, y: real, ghost c: nat)
    requires rand.s == StateAfter(seed, c0)
    modifies rand
    ensures rand.s == StateAfter(seed, c)
    ensures done ==> PlatformStep(Stream(seed), c0, rest, lastX, lastY, id, d) == Walk([], c)
    ensures !done ==>
      PlatformStep(Stream(seed), c0, rest, lastX, lastY, id, d)
      == Walk([PlatformBody(id, x, y, d)] + PlatformWalk(Stream(seed), c, rest, x, y, id + 1, d).platforms,
              PlatformWalk(Stream(seed), c, rest, x, y, id + 1, d).cursor)
  {
    var delta := 100.0 * d.scale;
    var maxY := d.groundY - 100.0;
    var finishX := d.levelWidth as real - 100.0;
    var r := DrawNext(rand, seed, c0);
    c := c0 + 1;
    var spacingX := SpacingX(r, d);
    x := lastX + spacingX;
    y := lastY;
    if x >= finishX {
      return true, x, y, c;
    }
    r := DrawNext(rand, seed, c);
    c := c + 1;
    if r > 0.5 {
      y := lastY - delta;
      if y < MIN_Y {
        y := lastY + delta;
      }
    } else {
      y := lastY + delta;
      if y > maxY {
        y := lastY - delta;
      }
    }
    done := false;
  }

  /** The platforms array is emptied and refilled; the result is the new platforms only. */
  method GeneratePlatformsSeeded(count: nat, rand: SeededRandom, d: Dims, id0: BodyId, ghost seed: int, ghost c0: nat)
    returns (platforms: seq<Body>)
    requires rand.s == StateAfter(seed, c0)
    modifies rand
    ensures platforms == Platforms(Stream(seed), c0, count, id0, d).platforms
    ensures rand.s == StateAfter(seed, Platforms(Stream(seed), c0, count, id0, d).cursor)
  {
    ghost var rs := Stream(seed);
    ghost var whole := Platforms(rs, c0, count, id0, d);
    ghost var c := c0;
    platforms := [];
    var width := 100.0 * d.scale;
    var height := 40.0 * d.scale;
    var lastX, lastY := 0.0, d.groundY - 100.0;
    var i := 0;
    ghost var tail := whole;
    while i < count
      invariant 0 <= i <= count && |platforms| == i
      invariant rand.s == StateAfter(seed, c)
      invariant tail == PlatformWalk(rs, c, count - i, lastX, lastY, id0 + i, d)
      invariant whole.platforms == platforms + tail.platforms && whole.cursor == tail.cursor
    {
      var done, x, y;
      done, x, y, c := NextPlatformSeeded(rand, d, lastX, lastY, id0 + i, seed, c, count - i - 1);
      if done {
        assert tail.platforms == [];
        assert platforms + [] == platforms;
        break;
      }
      var platform := Rectangle(id0 + i, Platform, x, y, width, height);
      ghost var next := PlatformWalk(rs, c, count - i - 1, x, y, id0 + i + 1, d);
      assert platform == PlatformBody(id0 + i, x, y, d);
      assert tail.platforms == [platform] + next.platforms;
      AppendAssoc(platforms, [platform], next.platforms);
      assert whole.platforms == (platforms + [platform]) + next.platforms;
      tail := next;
      lastX, lastY := x, y;
      platforms := platforms + [platform];
      i := i + 1;
    }
    assert tail.platforms == [];
    assert platforms + [] == platforms;
  }

  /** Bodies numbered consecutively from id, all carrying the given label. */
  predicate Numbered(p: seq<Body>, id: BodyId, tag: Label)
  {
    forall k :: 0 <= k < |p| ==> p[k].id == id + k && p[k].tag == tag
  }

  /** Every platform centre lies left of the finish x. */
  predicate BeforeFinish(p: seq<Body>, d: Dims)
  {
    forall k :: 0 <= k < |p| ==> p[k].x < d.FinishX()
  }

  /** The draws a walk of at most n iterations used: two per platform, one more if an x reached the finish. */
  function WalkDraws(w: Walk, n: nat): nat
  {
    2 * |w.platforms| + (if |w.platforms| < n then 1 else 0)
  }

  /** Count, ids, labels and the finish cut-off of a walk. */
  lemma {:induction false} WalkShape(rs: nat -> real, c: nat, n: nat, lastX: real, lastY: real, id: BodyId, d: Dims)
    ensures |PlatformWalk(rs, c, n, lastX, lastY, id, d).platforms| <= n
    ensures Numbered(PlatformWalk(rs, c, n, lastX, lastY, id, d).platforms, id, Platform)
    ensures BeforeFinish(PlatformWalk(rs, c, n, lastX, lastY, id, d).platforms, d)
    decreases n
  {
    if n > 0 {
      var x := lastX + SpacingX(rs(c), d);
      if x < d.FinishX() {
        var y := StepY(rs(c + 1) > 0.5, lastY, d.Delta(), MIN_Y, d.MaxY());
        WalkShape(rs, c + 2, n - 1, x, y, id + 1, d);
        var w := PlatformWalk(rs, c + 2, n - 1, x, y, id + 1, d);
        assert PlatformWalk(rs, c, n, lastX, lastY, id, d) == Walk([PlatformBody(id, x, y, d)] + w.platforms, w.cursor);
      }
    }
  }

  /** A walk uses two draws per platform and one for the iteration that reached the finish, if any. */
  lemma {:induction false} WalkCursor(rs: nat -> real, c: nat, n: nat, lastX: real, lastY: real, id: BodyId, d: Dims)
    ensures PlatformWalk(rs, c, n, lastX, lastY, id, d).cursor
         == c + WalkDraws(PlatformWalk(rs, c, n, lastX, lastY, id, d), n)
    decreases n
  {
    if n > 0 {
      var x := lastX + SpacingX(rs(c), d);
      if x < d.FinishX() {
        var y := StepY(rs(c + 1) > 0.5, lastY, d.Delta(), MIN_Y, d.MaxY());
        WalkShape(rs, c + 2, n - 1, x, y, id + 1, d);
        WalkCursor(rs, c + 2, n - 1, x, y, id + 1, d);
        var w := PlatformWalk(rs, c + 2, n - 1, x, y, id + 1, d);
        assert PlatformWalk(rs, c, n, lastX, lastY, id, d) == Walk([PlatformBody(id, x, y, d)] + w.platforms, w.cursor);
      }
    }
  }

  lemma SpacingBounds(r: real, d: Dims)
    requires 0.0 <= r <= 1.0 && d.scale >= 0.0
    ensures d.MinSpacing() <= SpacingX(r, d) <= d.MaxSpacing()
  {
    assert d.MaxSpacing() - d.MinSpacing() == 100.0 * d.scale;
    assert 0.0 <= r * (100.0 * d.scale);
    assert 0.0 <= (1.0 - r) * (100.0 * d.scale);
  }

  /** Each platform lies a gap in [200·scale, 300·scale] right of the one before it, the first right of lastX. */
  predicate Spaced(p: seq<Body>, lastX: real, d: Dims)
  {
    && (|p| > 0 ==> d.MinSpacing() <= p[0].x - lastX <= d.MaxSpacing())
    && (forall k :: 0 < k < |p| ==> d.MinSpacing() <= p[k].x - p[k - 1].x <= d.MaxSpacing())
  }

  lemma {:induction false} WalkSpacing(rs: nat -> real, c: nat, n: nat, lastX: real, lastY: real, id: BodyId, d: Dims)
    requires InUnit(rs) && d.scale >= 0.0
    ensures Spaced(PlatformWalk(rs, c, n, lastX, lastY, id, d).platforms, lastX, d)
    decreases n
  {
    if n > 0 {
      var x := lastX + SpacingX(rs(c), d);
      SpacingBounds(rs(c), d);
      if x < d.FinishX() {
        var y := StepY(rs(c + 1) > 0.5, lastY, d.Delta(), MIN_Y, d.MaxY());
        WalkSpacing(rs, c + 2, n - 1, x, y, id + 1, d);
        var w := PlatformWalk(rs, c + 2, n - 1, x, y, id + 1, d);
        assert PlatformWalk(rs, c, n, lastX, lastY, id, d) == Walk([PlatformBody(id, x, y, d)] + w.platforms, w.cursor);
      }
    }
  }

  /** Strictly increasing x values, the first right of 0. */
  predicate Increasing(p: seq<Body>)
  {
    && (|p| > 0 ==> p[0].x > 0.0)
    && (forall k :: 0 < k < |p| ==> p[k - 1].x < p[k].x)
  }

  /** A positive scale makes the platform x values strictly increasing from 0. */
  lemma WalkIncreasing(rs: nat -> real, c: nat, count: nat, id: BodyId, d: Dims)
    requires InUnit(rs) && d.scale > 0.0
    ensures Increasing(Platforms(rs, c, count, id, d).platforms)
  {
    WalkSpacing(rs, c, count, 0.0, d.MaxY(), id, d);
  }

  /** Each y is the one before it (the first: lastY) plus or minus delta. */
  predicate Stepped(p: seq<Body>, lastY: real, delta: real)
  {
    && (|p| > 0 ==> p[0].y == lastY - delta || p[0].y == lastY + delta)
    && (forall k :: 0 < k < |p| ==> p[k].y == p[k - 1].y - delta || p[k].y == p[k - 1].y + delta)
  }

  lemma {:induction false} WalkVertical(rs: nat -> real, c: nat, n: nat, lastX: real, lastY: real, id: BodyId, d: Dims)
    ensures Stepped(PlatformWalk(rs, c, n, lastX, lastY, id, d).platforms, lastY, d.Delta())
    decreases n
  {
    if n > 0 {
      var x := lastX + SpacingX(rs(c), d);
      if x < d.FinishX() {
        var y := StepY(rs(c + 1) > 0.5, lastY, d.Delta(), MIN_Y, d.MaxY());
        WalkVertical(rs, c + 2, n - 1, x, y, id + 1, d);
        var w := PlatformWalk(rs, c + 2, n - 1, x, y, id + 1, d);
        assert PlatformWalk(rs, c, n, lastX, lastY, id, d) == Walk([PlatformBody(id, x, y, d)] + w.platforms, w.cursor);
      }
    }
  }

  /** With a band at least two steps tall, one step from inside the band stays inside. */
  lemma StepYInBand(up: bool, lastY: real, delta: real, minY: real, maxY: real)
    requires delta >= 0.0 && maxY - minY >= 2.0 * delta
    requires minY <= lastY <= maxY
    ensures minY <= StepY(up, lastY, delta, minY, maxY) <= maxY
  {
  }

  /** Every platform y lies in [minY, maxY]. */
  predicate InBand(p: seq<Body>, d: Dims)
  {
    forall k :: 0 <= k < |p| ==> MIN_Y <= p[k].y <= d.MaxY()
  }

  /** With maxY - minY >= 2·delta the walk never leaves the band. */
  lemma {:induction false} WalkInBand(rs: nat -> real, c: nat, n: nat, lastX: real, lastY: real, id: BodyId, d: Dims)
    requires d.scale >= 0.0 && d.MaxY() - MIN_Y >= 2.0 * d.Delta()
    requires MIN_Y <= lastY <= d.MaxY()
    ensures InBand(PlatformWalk(rs, c, n, lastX, lastY, id, d).platforms, d)
    decreases n
  {
    if n > 0 {
      var x := lastX + SpacingX(rs(c), d);
      if x < d.FinishX() {
        var up := rs(c + 1) > 0.5;
        var y := StepY(up, lastY, d.Delta(), MIN_Y, d.MaxY());
        StepYInBand(up, lastY, d.Delta(), MIN_Y, d.MaxY());
        WalkInBand(rs, c + 2, n - 1, x, y, id + 1, d);
        var w := PlatformWalk(rs, c + 2, n - 1, x, y, id + 1, d);
        assert PlatformWalk(rs, c, n, lastX, lastY, id, d) == Walk([PlatformBody(id, x, y, d)] + w.platforms, w.cursor);
      }
    }
  }

  /** Under the same band condition the first platform always sits one step above maxY. */
  lemma FirstPlatformY(rs: nat -> real, c: nat, count: nat, id: BodyId, d: Dims)
    requires d.scale > 0.0 && d.MaxY() - MIN_Y >= 2.0 * d.Delta()
    requires |Platforms(rs, c, count, id, d).platforms| > 0
    ensures Platforms(rs, c, count, id, d).platforms[0].y == d.MaxY() - d.Delta()
  {
    var x := 0.0 + SpacingX(rs(c), d);
    var y := StepY(rs(c + 1) > 0.5, d.MaxY(), d.Delta(), MIN_Y, d.MaxY());
    var w := PlatformWalk(rs, c + 2, count - 1, x, y, id + 1, d);
    assert Platforms(rs, c, count, id, d) == PlatformStep(rs, c, count - 1, 0.0, d.MaxY(), id, d);
    assert Platforms(rs, c, count, id, d) == Walk([PlatformBody(id, x, y, d)] + w.platforms, w.cursor);
  }

  // ---------------------------------------------------------------------------
  // Coins (generateCoinsSeeded)
  // ---------------------------------------------------------------------------

  /** The region queried for a coin centred at (x, y): its bounds grown by the exclusion margin. */
  function CoinQueryBox(x: real, y: real, d: Dims): Box
  {
    var half := d.CoinSize() + EXCLUSION_MARGIN;
    Box(x - half, x + half, y - half, y + half)
  }

  /** Labels the coin query does not count as obstacles: background, ground and player ball. */
  predicate Ignored(tag: Label)
  {
    tag.Background? || tag.Ground? || tag.PlayerBall?
  }

  /** Whether some body of a query result is not ignored, checked from the front. */
  predicate AnyObstacle(hits: seq<Body>)
  {
    hits != [] && (!Ignored(hits[0].tag) || AnyObstacle(hits[1..]))
  }

  /** The coin test: some body overlapping the box carries a label that is not ignored. */
  predicate Collides(bodies: seq<Body>, box: Box)
  {
    AnyObstacle(Region(bodies, box))
  }

  lemma {:induction false} AnyObstacleIff(hits: seq<Body>)
    ensures AnyObstacle(hits) <==> exists i :: 0 <= i < |hits| && !Ignored(hits[i].tag)
  {
    if hits != [] {
      AnyObstacleIff(hits[1..]);
      if !Ignored(hits[0].tag) {
        assert 0 <= 0 < |hits| && !Ignored(hits[0].tag);
      } else if exists i :: 0 <= i < |hits| && !Ignored(hits[i].tag) {
        var i :| 0 <= i < |hits| && !Ignored(hits[i].tag);
        assert hits[1..][i - 1] == hits[i];
      }
    }
  }

  /** A query finds no obstacle exactly when every body that is not ignored misses the box. */
  lemma CollidesIff(bodies: seq<Body>, box: Box)
    ensures !Collides(bodies, box) <==>
      forall b :: b in bodies && !Ignored(b.tag) ==> !Overlaps(b, box)
  {
    var hits := Region(bodies, box);
    AnyObstacleIff(hits);
    if Collides(bodies, box) {
      var i :| 0 <= i < |hits| && !Ignored(hits[i].tag);
      RegionMember(bodies, box, hits[i]);
    } else {
      forall b | b in bodies && !Ignored(b.tag)
        ensures !Overlaps(b, box)
      {
        RegionMember(bodies, box, b);
      }
    }
  }

  /** The coin x for a draw r: r scaled to the level width less 50, plus 25. */
  function CoinX(r: real, d: Dims): real
  {
    r * (d.levelWidth as real - 50.0) + 25.0
  }

  /** The coin y for a draw r: r scaled to the band between y = 50 and the lowest coin centre, plus 50. */
  function CoinY(r: real, d: Dims): real
  {
    r * d.CoinYSpan() + 50.0
  }

  function CoinBody(id: BodyId, p: Point, d: Dims): Body
  {
    Circle(id, Coin, p.x, p.y, d.CoinSize())
  }

  datatype Attempt = Attempt(spot: Option<Point>, cursor: nat)

  /** One attempt from draw c: x is drawn first, and y only when x lies left of the finish x. */
  function TryCoin(rs: nat -> real, c: nat, bodies: seq<Body>, d: Dims): Attempt
  {
    var x := CoinX(rs(c), d);
    if x >= d.FinishX() then Attempt(None, c + 1)
    else
      var y := CoinY(rs(c + 1), d);
      if Collides(bodies, CoinQueryBox(x, y, d)) then Attempt(None, c + 2)
      else Attempt(Some(Point(x, y)), c + 2)
  }

  datatype CoinRun = CoinRun(coins: seq<Body>, cursor: nat)

  /**
    The outer loop of generateCoinsSeeded with n coins to go, `placed` already placed:
    each coin is checked against the world and every coin placed before it, and
    numbered after them.
  */
  function Coins(rs: nat -> real, c: nat, n: nat, world: seq<Body>, placed: seq<Body>, id0: BodyId, d: Dims): CoinRun
    decreases n, 0
  {
    if n == 0 then CoinRun(placed, c)
    else CoinTries(rs, c, MAX_ATTEMPTS, n - 1, world, placed, id0, d)
  }

  /** The inner loop: k attempts left for the next coin, `rest` coins to go after it. */
  function CoinTries(rs: nat -> real, c: nat, k: nat, rest: nat, world: seq<Body>, placed: seq<Body>, id0: BodyId, d: Dims): CoinRun
    decreases rest, 1, k, 1
  {
    if k == 0 then Coins(rs, c, rest, world, placed, id0, d)
    else CoinAttempt(rs, c, k - 1, rest, world, placed, id0, d)
  }

  /**
    One attempt, `left` more after it: an accepted spot places the coin, numbered after
    those placed, and ends the attempts for it; a failed one moves to the next attempt.
  */
  function CoinAttempt(rs: nat -> real, c: nat, left: nat, rest: nat, world: seq<Body>, placed: seq<Body>, id0: BodyId, d: Dims): CoinRun
    decreases rest, 1, left, 2
  {
    var t := TryCoin(rs, c, world + placed, d);
    if t.spot.Some? then Coins(rs, t.cursor, rest, world, placed + [CoinBody(id0 + |placed|, t.spot.value, d)], id0, d)
    else CoinTries(rs, t.cursor, left, rest, world, placed, id0, d)
  }

  /** One attempt on the shared stream: draw x, and y only when x lies left of the finish x, then query the bodies. */
  method TryCoinSeeded(rand: SeededRandom, d: Dims, bodies: seq<Body>, ghost seed: int, ghost c0: nat,
                       ghost left: nat, ghost rest: nat, ghost world: seq<Body>, ghost placed: seq<Body>, ghost id0: BodyId)
    returns (spot: Option<Point>, ghost c: nat)
    requires rand.s == StateAfter(seed, c0) && bodies == world + placed
    modifies rand
    ensures rand.s == StateAfter(seed, c)
    ensures CoinAttempt(Stream(seed), c0, left, rest, world, placed, id0, d)
         == if spot.Some? then Coins(Stream(seed), c, rest, world, placed + [CoinBody(id0 + |placed|, spot.value, d)], id0, d)
            else CoinTries(Stream(seed), c, left, rest, world, placed, id0, d)
  {
    var finishX := d.levelWidth as real - 100.0;
    var r := DrawNext(rand, seed, c0);
    c := c0 + 1;
    var x := CoinX(r, d);
    if x >= finishX {
      return None, c;
    }
    r := DrawNext(rand, seed, c);
    c := c + 1;
    var y := CoinY(r, d);
    var bodiesInRegion := Region(bodies, CoinQueryBox(x, y, d));
    var collides := AnyObstacle(bodiesInRegion);
    spot := if collides then None else Some(Point(x, y));
  }

  /** Up to 50 attempts for the next coin, against the world and the coins placed so far. */
  method PlaceCoinSeeded(rand: SeededRandom, d: Dims, world: seq<Body>, coins: seq<Body>, id0: BodyId,
                         ghost seed: int, ghost c0: nat, ghost rest: nat)
    returns (placed: seq<Body>, ghost c: nat)
    requires rand.s == StateAfter(seed, c0)
    modifies rand
    ensures rand.s == StateAfter(seed, c)
    ensures CoinTries(Stream(seed), c0, MAX_ATTEMPTS, rest, world, coins, id0, d) == Coins(Stream(seed), c, rest, world, placed, id0, d)
  {
    ghost var rs := Stream(seed);
    ghost var whole := CoinTries(rs, c0, MAX_ATTEMPTS, rest, world, coins, id0, d);
    var coinSize := 20.0 * d.scale;
    c := c0;
    var attempt := 0;
    while attempt < MAX_ATTEMPTS
      invariant 0 <= attempt <= MAX_ATTEMPTS
      invariant rand.s == StateAfter(seed, c)
      invariant whole == CoinTries(rs, c, MAX_ATTEMPTS - attempt, rest, world, coins, id0, d)
    {
      var spot;
      spot, c := TryCoinSeeded(rand, d, world + coins, seed, c, MAX_ATTEMPTS - attempt - 1, rest, world, coins, id0);
      if spot.Some? {
        var coin := Circle(id0 + |coins|, Coin, spot.value.x, spot.value.y, coinSize);
        return coins + [coin], c;
      }
      attempt := attempt + 1;
    }
    placed := coins;
  }

  /**
    The coins array is emptied and refilled; `world` is the world's bodies when the
    call starts, and every accepted coin is added to it before the next query.
  */
  method GenerateCoinsSeeded(count: nat, rand: SeededRandom, d: Dims, world: seq<Body>, id0: BodyId,
                             ghost seed: int, ghost c0: nat)
    returns (coins: seq<Body>)
    requires rand.s == StateAfter(seed, c0)
    modifies rand
    ensures coins == Coins(Stream(seed), c0, count, world, [], id0, d).coins
    ensures rand.s == StateAfter(seed, Coins(Stream(seed), c0, count, world, [], id0, d).cursor)
  {
    ghost var rs := Stream(seed);
    ghost var whole := Coins(rs, c0, count, world, [], id0, d);
    ghost var c := c0;
    coins := [];
    var i := 0;
    while i < count
      invariant 0 <= i <= count
      invariant rand.s == StateAfter(seed, c)
      invariant whole == Coins(rs, c, count - i, world, coins, id0, d)
    {
      coins, c := PlaceCoinSeeded(rand, d, world, coins, id0, seed, c, count - i - 1);
      i := i + 1;
    }
  }

  /** An attempt with x at or past the finish x uses one draw and finds no spot; any other attempt uses two. */
  lemma TryCoinDraws(rs: nat -> real, c: nat, bodies: seq<Body>, d: Dims)
    ensures CoinX(rs(c), d) >= d.FinishX() ==> TryCoin(rs, c, bodies, d) == Attempt(None, c + 1)
    ensures CoinX(rs(c), d) < d.FinishX() ==> TryCoin(rs, c, bodies, d).cursor == c + 2
  {
  }

  /** No body the query counts as an obstacle overlaps the query box of a coin at p. */
  predicate Clear(bodies: seq<Body>, p: Point, d: Dims)
  {
    forall b :: b in bodies && !Ignored(b.tag) ==> !Overlaps(b, CoinQueryBox(p.x, p.y, d))
  }

  /** A spot in the drawing area, left of the finish x, and clear of the bodies. */
  predicate SpotOk(p: Point, bodies: seq<Body>, d: Dims)
  {
    && 25.0 <= p.x < d.FinishX()
    && 50.0 <= p.y <= d.groundY - d.CoinSize() - MIN_COIN_Y_ABOVE_GROUND
    && Clear(bodies, p, d)
  }

  lemma CoinSpotBounds(v1: real, v2: real, d: Dims)
    requires 0.0 <= v1 <= 1.0 && 0.0 <= v2 <= 1.0
    requires d.levelWidth >= 50 && d.CoinYSpan() >= 0.0
    ensures 25.0 <= CoinX(v1, d)
    ensures 50.0 <= CoinY(v2, d) <= d.groundY - d.CoinSize() - MIN_COIN_Y_ABOVE_GROUND
  {
    assert 0.0 <= v1 * (d.levelWidth as real - 50.0);
    assert 0.0 <= v2 * d.CoinYSpan();
    assert 0.0 <= (1.0 - v2) * d.CoinYSpan();
  }

  /** A spot one attempt accepts lies in the drawing area, before the finish x, and clear of every obstacle. */
  lemma TryCoinSound(rs: nat -> real, c: nat, bodies: seq<Body>, d: Dims)
    requires InUnit(rs) && d.levelWidth >= 50 && d.CoinYSpan() >= 0.0
    ensures TryCoin(rs, c, bodies, d).spot.Some? ==> SpotOk(TryCoin(rs, c, bodies, d).spot.value, bodies, d)
  {
    var x := CoinX(rs(c), d);
    var y := CoinY(rs(c + 1), d);
    CoinSpotBounds(rs(c), rs(c + 1), d);
    CollidesIff(bodies, CoinQueryBox(x, y, d));
  }

  /** Each coin sits on a spot clear of the world and of every coin placed before it. */
  predicate CoinsPlaced(world: seq<Body>, c: seq<Body>, d: Dims)
  {
    forall k :: 0 <= k < |c| ==> SpotOk(Point(c[k].x, c[k].y), world + c[..k], d)
  }

  /** Numbering carries over appending the next body. */
  lemma NumberedSnoc(p: seq<Body>, b: Body, id: BodyId, tag: Label)
    requires Numbered(p, id, tag) && b.id == id + |p| && b.tag == tag
    ensures Numbered(p + [b], id, tag)
  {
    forall k | 0 <= k < |p + [b]|
      ensures (p + [b])[k].id == id + k && (p + [b])[k].tag == tag
    {
      if k < |p| {
        assert (p + [b])[k] == p[k];
      }
    }
  }

  /** The outer loop adds at most one coin per iteration, numbered after those placed before it. */
  lemma {:induction false} CoinsShape(rs: nat -> real, c: nat, n: nat, world: seq<Body>, placed: seq<Body>, id0: BodyId, d: Dims)
    requires Numbered(placed, id0, Coin)
    ensures |placed| <= |Coins(rs, c, n, world, placed, id0, d).coins| <= |placed| + n
    ensures Numbered(Coins(rs, c, n, world, placed, id0, d).coins, id0, Coin)
    decreases n, 0
  {
    if n > 0 {
      TriesShape(rs, c, MAX_ATTEMPTS, n - 1, world, placed, id0, d);
    }
  }

  lemma {:induction false} TriesShape(rs: nat -> real, c: nat, k: nat, rest: nat, world: seq<Body>, placed: seq<Body>, id0: BodyId, d: Dims)
    requires Numbered(placed, id0, Coin)
    ensures |placed| <= |CoinTries(rs, c, k, rest, world, placed, id0, d).coins| <= |placed| + rest + 1
    ensures Numbered(CoinTries(rs, c, k, rest, world, placed, id0, d).coins, id0, Coin)
    decreases rest, 1, k
  {
    if k == 0 {
      CoinsShape(rs, c, rest, world, placed, id0, d);
    } else {
      assert CoinTries(rs, c, k, rest, world, placed, id0, d) == CoinAttempt(rs, c, k - 1, rest, world, placed, id0, d);
      var t := TryCoin(rs, c, world + placed, d);
      if t.spot.Some? {
        var coin := CoinBody(id0 + |placed|, t.spot.value, d);
        NumberedSnoc(placed, coin, id0, Coin);
        CoinsShape(rs, t.cursor, rest, world, placed + [coin], id0, d);
      } else {
        TriesShape(rs, t.cursor, k - 1, rest, world, placed, id0, d);
      }
    }
  }

  /** Adding a coin on a spot clear of the world and the coins before it keeps every coin placed. */
  lemma CoinsPlacedSnoc(world: seq<Body>, placed: seq<Body>, b: Body, d: Dims)
    requires CoinsPlaced(world, placed, d)
    requires SpotOk(Point(b.x, b.y), world + placed, d)
    ensures CoinsPlaced(world, placed + [b], d)
  {
    var q := placed + [b];
    forall k | 0 <= k < |q|
      ensures SpotOk(Point(q[k].x, q[k].y), world + q[..k], d)
    {
      if k < |placed| {
        assert q[..k] == placed[..k];
        assert q[k] == placed[k];
      } else {
        assert q[..k] == placed;
      }
    }
  }

  /** Each coin the outer loop places is on a spot clear of the world and of every coin placed before it. */
  lemma {:induction false} CoinsSound(rs: nat -> real, c: nat, n: nat, world: seq<Body>, placed: seq<Body>, id0: BodyId, d: Dims)
    requires InUnit(rs) && d.levelWidth >= 50 && d.CoinYSpan() >= 0.0
    requires CoinsPlaced(world, placed, d)
    ensures CoinsPlaced(world, Coins(rs, c, n, world, placed, id0, d).coins, d)
    decreases n, 0
  {
    if n > 0 {
      TriesSound(rs, c, MAX_ATTEMPTS, n - 1, world, placed, id0, d);
    }
  }

  lemma {:induction false} TriesSound(rs: nat -> real, c: nat, k: nat, rest: nat, world: seq<Body>, placed: seq<Body>, id0: BodyId, d: Dims)
    requires InUnit(rs) && d.levelWidth >= 50 && d.CoinYSpan() >= 0.0
    requires CoinsPlaced(world, placed, d)
    ensures CoinsPlaced(world, CoinTries(rs, c, k, rest, world, placed, id0, d).coins, d)
    decreases rest, 1, k
  {
    if k == 0 {
      CoinsSound(rs, c, rest, world, placed, id0, d);
    } else {
      assert CoinTries(rs, c, k, rest, world, placed, id0, d) == CoinAttempt(rs, c, k - 1, rest, world, placed, id0, d);
      var t := TryCoin(rs, c, world + placed, d);
      if t.spot.Some? {
        TryCoinSound(rs, c, world + placed, d);
        var coin := CoinBody(id0 + |placed|, t.spot.value, d);
        CoinsPlacedSnoc(world, placed, coin, d);
        CoinsSound(rs, t.cursor, rest, world, placed + [coin], id0, d);
      } else {
        TriesSound(rs, t.cursor, k - 1, rest, world, placed, id0, d);
      }
    }
  }

  /** The draws the outer loop uses: at most two per attempt and 50 attempts per coin. */
  lemma {:induction false} CoinsDraws(rs: nat -> real, c: nat, n: nat, world: seq<Body>, placed: seq<Body>, id0: BodyId, d: Dims)
    ensures c <= Coins(rs, c, n, world, placed, id0, d).cursor <= c + 2 * MAX_ATTEMPTS * n
    decreases n, 0
  {
    if n > 0 {
      TriesDraws(rs, c, MAX_ATTEMPTS, n - 1, world, placed, id0, d);
    }
  }

  lemma {:induction false} TriesDraws(rs: nat -> real, c: nat, k: nat, rest: nat, world: seq<Body>, placed: seq<Body>, id0: BodyId, d: Dims)
    ensures c <= CoinTries(rs, c, k, rest, world, placed, id0, d).cursor <= c + 2 * k + 2 * MAX_ATTEMPTS * rest
    decreases rest, 1, k
  {
    if k == 0 {
      CoinsDraws(rs, c, rest, world, placed, id0, d);
    } else {
      assert CoinTries(rs, c, k, rest, world, placed, id0, d) == CoinAttempt(rs, c, k - 1, rest, world, placed, id0, d);
      var t := TryCoin(rs, c, world + placed, d);
      TryCoinDraws(rs, c, world + placed, d);
      if t.spot.Some? {
        var coin := CoinBody(id0 + |placed|, t.spot.value, d);
        CoinsDraws(rs, t.cursor, rest, world, placed + [coin], id0, d);
      } else {
        TriesDraws(rs, t.cursor, k - 1, rest, world, placed, id0, d);
      }
    }
  }

  /** Placed coins keep their distance: no coin's bounds reach the query box of a later coin. */
  lemma CoinsApart(rs: nat -> real, c: nat, count: nat, world: seq<Body>, id0: BodyId, d: Dims, j: nat, k: nat)
    requires InUnit(rs) && d.levelWidth >= 50 && d.CoinYSpan() >= 0.0
    requires j < k < |Coins(rs, c, count, world, [], id0, d).coins|
    ensures !Overlaps(Coins(rs, c, count, world, [], id0, d).coins[j],
                      CoinQueryBox(Coins(rs, c, count, world, [], id0, d).coins[k].x,
                                   Coins(rs, c, count, world, [], id0, d).coins[k].y, d))
  {
    CoinsSound(rs, c, count, world, [], id0, d);
    CoinsShape(rs, c, count, world, [], id0, d);
    var cs := Coins(rs, c, count, world, [], id0, d).coins;
    assert SpotOk(Point(cs[k].x, cs[k].y), world + cs[..k], d);
    assert cs[j] in world + cs[..k];
    assert cs[j].tag == Coin;
  }

  /** Every coin lies in the drawing area left of the finish x, and clear of each obstacle of the world it was placed in. */
  lemma CoinsClearOf(rs: nat -> real, c: nat, count: nat, world: seq<Body>, id0: BodyId, d: Dims, b: Body)
    requires InUnit(rs) && d.levelWidth >= 50 && d.CoinYSpan() >= 0.0
    requires b in world && !Ignored(b.tag)
    ensures var cs := Coins(rs, c, count, world, [], id0, d).coins;
      forall k :: 0 <= k < |cs| ==> 25.0 <= cs[k].x < d.FinishX() && !Overlaps(b, CoinQueryBox(cs[k].x, cs[k].y, d))
  {
    CoinsSound(rs, c, count, world, [], id0, d);
    var cs := Coins(rs, c, count, world, [], id0, d).coins;
    forall k | 0 <= k < |cs|
      ensures 25.0 <= cs[k].x < d.FinishX() && !Overlaps(b, CoinQueryBox(cs[k].x, cs[k].y, d))
    {
      assert SpotOk(Point(cs[k].x, cs[k].y), world + cs[..k], d);
      assert b in world + cs[..k];
    }
  }

  /**
    Where coins lie relative to a finish and platforms: in the drawing area from
    x = 25 to left of the finish x, clear of the finish, of every platform and of
    every coin placed before them.
  */
  predicate CoinsKeepClear(cs: seq<Body>, finish: Body, platforms: seq<Body>, d: Dims)
  {
    && (forall k :: 0 <= k < |cs| ==> 25.0 <= cs[k].x < d.FinishX())
    && (forall k :: 0 <= k < |cs| ==> !Overlaps(finish, CoinQueryBox(cs[k].x, cs[k].y, d)))
    && (forall k, j :: 0 <= k < |cs| && 0 <= j < |platforms| ==> !Overlaps(platforms[j], CoinQueryBox(cs[k].x, cs[k].y, d)))
    && (forall k, j :: 0 <= j < k < |cs| ==> !Overlaps(cs[j], CoinQueryBox(cs[k].x, cs[k].y, d)))
  }

  /** The coins keep clear of the j-th platform of the world they were placed against. */
  lemma CoinsClearOfPlatform(rs: nat -> real, c: nat, count: nat, tiles: seq<Body>, finish: Body,
                             platforms: seq<Body>, id0: BodyId, d: Dims, j: nat)
    requires InUnit(rs) && d.levelWidth >= 50 && d.CoinYSpan() >= 0.0
    requires j < |platforms| && platforms[j].tag == Platform
    ensures var cs := Coins(rs, c, count, tiles + [finish] + platforms, [], id0, d).coins;
      forall k :: 0 <= k < |cs| ==> !Overlaps(platforms[j], CoinQueryBox(cs[k].x, cs[k].y, d))
  {
    var world := tiles + [finish] + platforms;
    assert world[|tiles| + 1 + j] == platforms[j];
    CoinsClearOf(rs, c, count, world, id0, d, platforms[j]);
  }

  /** Coins placed against tiles, a finish and platforms keep clear of them and of each other. */
  lemma CoinsClearOfLevel(rs: nat -> real, c: nat, count: nat, tiles: seq<Body>, finish: Body,
                          platforms: seq<Body>, id0: BodyId, d: Dims)
    requires InUnit(rs) && d.levelWidth >= 50 && d.CoinYSpan() >= 0.0
    requires finish.tag == FinishLine && forall j :: 0 <= j < |platforms| ==> platforms[j].tag == Platform
    ensures CoinsKeepClear(Coins(rs, c, count, tiles + [finish] + platforms, [], id0, d).coins, finish, platforms, d)
  {
    var world := tiles + [finish] + platforms;
    var cs := Coins(rs, c, count, world, [], id0, d).coins;
    assert finish in world;
    CoinsClearOf(rs, c, count, world, id0, d, finish);
    forall j | 0 <= j < |platforms|
      ensures forall k :: 0 <= k < |cs| ==> !Overlaps(platforms[j], CoinQueryBox(cs[k].x, cs[k].y, d))
    {
      CoinsClearOfPlatform(rs, c, count, tiles, finish, platforms, id0, d, j);
    }
    forall k, j | 0 <= j < k < |cs|
      ensures !Overlaps(cs[j], CoinQueryBox(cs[k].x, cs[k].y, d))
    {
      CoinsApart(rs, c, count, world, id0, d, j, k);
    }
  }

  /** Multiplying by a non-negative factor keeps the order. */
  lemma ScaleMono(a: real, b: real, s: real)
    requires a <= b && s >= 0.0
    ensures a * s <= b * s
  {
    assert b * s - a * s == (b - a) * s;
  }

  /** Dividing by a positive divisor keeps the order. */
  lemma DivMono(a: real, b: real, s: real)
    requires a <= b && s > 0.0
    ensures a / s <= b / s
  {
    assert b / s - a / s == (b - a) / s;
  }

  // ---------------------------------------------------------------------------
  // Finish marker (generateFinishLineSeeded)
  // ---------------------------------------------------------------------------

  /** The finish for a draw r: height floor(r·100 + 100)·scale, width 40·scale, at x = levelWidth − 100. */
  function FinishBody(r: real, id: BodyId, d: Dims): Body
  {
    var height := (r * 100.0 + 100.0).Floor as real * d.scale;
    var width := 40.0 * d.scale;
    var x := d.levelWidth as real - 100.0;
    var y := (d.groundY - height) / 2.0 + height / 2.0;
    Rectangle(id, FinishLine, x, y, width, height)
  }

  /** The finish marker takes exactly one draw, value number c of the stream. */
  method GenerateFinishLineSeeded(rand: SeededRandom, d: Dims, id: BodyId, ghost seed: int, ghost c: nat)
    returns (finish: Body)
    requires rand.s == StateAfter(seed, c)
    modifies rand
    ensures rand.s == StateAfter(seed, c + 1)
    ensures finish == FinishBody(Stream(seed)(c), id, d)
  {
    var r := DrawNext(rand, seed, c);
    finish := FinishBody(r, id, d);
  }

  /** A height of k units, for k between 100 and 200, scaled by a positive factor. */
  lemma TallyBounds(k: int, s: real)
    requires 100 <= k <= 200 && s > 0.0
    ensures 100.0 * s <= k as real * s <= 200.0 * s
    ensures k <= 199 ==> k as real * s <= 199.0 * s
  {
    ScaleMono(100.0, k as real, s);
    ScaleMono(k as real, 200.0, s);
    if k <= 199 {
      ScaleMono(k as real, 199.0, s);
    }
  }

  /** The centre sits at groundY / 2 whatever the height; the unscaled height is 100..199 for r < 1, and 200 for r = 1. */
  lemma FinishGeometry(r: real, id: BodyId, d: Dims)
    requires 0.0 <= r <= 1.0 && d.scale > 0.0
    ensures var f := FinishBody(r, id, d);
      && f.tag == FinishLine && f.x == d.FinishX() && f.y == d.groundY / 2.0
      && f.maxX - f.minX == 40.0 * d.scale
      && 100.0 * d.scale <= f.maxY - f.minY <= 200.0 * d.scale
      && (r < 1.0 ==> f.maxY - f.minY <= 199.0 * d.scale)
  {
    var k := (r * 100.0 + 100.0).Floor;
    assert 100 <= k <= 200;
    assert r < 1.0 ==> k <= 199;
    var h := k as real * d.scale;
    TallyBounds(k, d.scale);
    var y := (d.groundY - h) / 2.0 + h / 2.0;
    assert y == d.groundY / 2.0;
    var f := FinishBody(r, id, d);
    assert f == Rectangle(id, FinishLine, d.levelWidth as real - 100.0, y, 40.0 * d.scale, h);
    assert f.maxY - f.minY == h;
  }

  // ---------------------------------------------------------------------------
  // Walls, ground tiles, jump impulse
  // ---------------------------------------------------------------------------

  /** generateWalls: left, right, upper limits and the thin ground plane. */
  function Walls(levelWidth: real, innerHeight: real, groundY: real, id: BodyId): (walls: seq<Body>)
  {
    [ Rectangle(id, LeftLimit, -5.0, 300.0, 10.0, innerHeight),
      Rectangle(id + 1, RightLimit, levelWidth + 10.0, 300.0, 10.0, innerHeight),
      Rectangle(id + 2, UpperLimit, 0.0, 0.0, levelWidth * 2.0, 10.0),
      Rectangle(id + 3, Ground, 0.0, groundY, levelWidth * 2.0, 6.0) ]
  }

  /** The walls enclose [0, levelWidth]: the left ends at 0, the right starts at levelWidth + 5, and the top and ground planes span it. */
  lemma WallsEnclose(levelWidth: real, innerHeight: real, groundY: real, id: BodyId)
    requires levelWidth >= 0.0
    ensures var w := Walls(levelWidth, innerHeight, groundY, id);
      && |w| == 4
      && w[0].maxX == 0.0 && w[1].minX == levelWidth + 5.0
      && w[2].minX <= 0.0 && levelWidth <= w[2].maxX && w[2].y == 0.0
      && w[3].minX <= 0.0 && levelWidth <= w[3].maxX && w[3].y == groundY && w[3].tag == Ground
  {
  }

  /** Math.ceil on reals. */
  function Ceil(r: real): (k: int)
    ensures k as real - 1.0 < r <= k as real
  {
    -((-r).Floor)
  }

  /** The number of ground tiles: three more than the viewport widths needed to span the level. */
  function TileCount(levelWidth: real, viewportWidth: real): int
    requires viewportWidth > 0.0
  {
    Ceil(levelWidth / viewportWidth) + 3
  }

  /** Ground tile i: centred at i·viewportWidth + viewportWidth / 2, with its top on the ground line. */
  function GroundTile(i: nat, viewportWidth: real, groundY: real, groundHeight: real, id0: BodyId): Body
  {
    Rectangle(id0 + i, Ground, i as real * viewportWidth + viewportWidth / 2.0, groundY + groundHeight / 2.0,
              viewportWidth, groundHeight)
  }

  /** The tiles generateGround adds, in order. */
  function GroundTiles(viewportWidth: real, groundY: real, groundHeight: real, levelWidth: real, id0: BodyId): (tiles: seq<Body>)
    requires viewportWidth > 0.0
    ensures |tiles| == if TileCount(levelWidth, viewportWidth) < 0 then 0 else TileCount(levelWidth, viewportWidth)
    ensures forall i :: 0 <= i < |tiles| ==> tiles[i] == GroundTile(i, viewportWidth, groundY, groundHeight, id0)
  {
    var n := TileCount(levelWidth, viewportWidth);
    seq(if n < 0 then 0 else n, i requires 0 <= i => GroundTile(i, viewportWidth, groundY, groundHeight, id0))
  }

  /**
    generateGround: tiles of the viewport's width laid side by side from x = 0 below
    the ground line, each tile's left side on the previous tile's right side.
  */
  method GenerateGround(viewportWidth: real, groundY: real, groundHeight: real, levelWidth: real, id0: BodyId)
    returns (tiles: seq<Body>)
    requires viewportWidth > 0.0
    ensures tiles == GroundTiles(viewportWidth, groundY, groundHeight, levelWidth, id0)
    ensures forall i :: 0 <= i < |tiles| ==>
      && tiles[i].id == id0 + i && tiles[i].tag == Ground
      && tiles[i].minX == i as real * viewportWidth && tiles[i].maxX == (i + 1) as real * viewportWidth
      && tiles[i].minY == groundY && tiles[i].maxY == groundY + groundHeight
    ensures forall i :: 0 < i < |tiles| ==> tiles[i].minX == tiles[i - 1].maxX
  {
    var y := groundY + groundHeight / 2.0;
    var tilesNeeded := Ceil(levelWidth / viewportWidth) + 3;
    tiles := [];
    var i := 0;
    while i < tilesNeeded
      invariant 0 <= i && |tiles| == i
      invariant tilesNeeded >= 0 ==> i <= tilesNeeded
      invariant tilesNeeded < 0 ==> i == 0
      invariant forall j :: 0 <= j < i ==> tiles[j] == GroundTile(j, viewportWidth, groundY, groundHeight, id0)
    {
      var x := (i as real * viewportWidth) + viewportWidth / 2.0;
      tiles := tiles + [Rectangle(id0 + i, Ground, x, y, viewportWidth, groundHeight)];
      i := i + 1;
    }
    ghost var all := GroundTiles(viewportWidth, groundY, groundHeight, levelWidth, id0);
    assert |tiles| == |all|;
    assert forall j :: 0 <= j < |tiles| ==> tiles[j] == all[j];
    GroundTilesAbut(viewportWidth, groundY, groundHeight, levelWidth, id0);
  }

  /** The tiles are numbered from id0, tile i spans [i·w, (i + 1)·w] below the ground line, and neighbours abut. */
  lemma GroundTilesAbut(viewportWidth: real, groundY: real, groundHeight: real, levelWidth: real, id0: BodyId)
    requires viewportWidth > 0.0
    ensures var tiles := GroundTiles(viewportWidth, groundY, groundHeight, levelWidth, id0);
      && (forall i :: 0 <= i < |tiles| ==>
            && tiles[i].id == id0 + i && tiles[i].tag == Ground
            && tiles[i].minX == i as real * viewportWidth && tiles[i].maxX == (i + 1) as real * viewportWidth
            && tiles[i].minY == groundY && tiles[i].maxY == groundY + groundHeight)
      && (forall i :: 0 < i < |tiles| ==> tiles[i].minX == tiles[i - 1].maxX)
  {
    var tiles := GroundTiles(viewportWidth, groundY, groundHeight, levelWidth, id0);
    forall i | 0 <= i < |tiles|
      ensures tiles[i].minX == i as real * viewportWidth && tiles[i].maxX == (i + 1) as real * viewportWidth
    {
      var lo, w := i as real * viewportWidth, viewportWidth;
      assert (i + 1) as real * w == lo + w;
    }
  }

  /** Every x in [0, levelWidth] lies on one of the tiles: tile floor(x / viewportWidth). */
  lemma GroundCovers(viewportWidth: real, levelWidth: real, x: real)
    requires viewportWidth > 0.0 && 0.0 <= x <= levelWidth
    ensures 0 <= (x / viewportWidth).Floor < TileCount(levelWidth, viewportWidth)
    ensures (x / viewportWidth).Floor as real * viewportWidth <= x <= (x / viewportWidth).Floor as real * viewportWidth + viewportWidth
  {
    DivMono(0.0, x, viewportWidth);
    DivMono(x, levelWidth, viewportWidth);
    FloorBracket(x, viewportWidth);
  }

  /** x lies between floor(x / w)·w and that plus w. */
  lemma FloorBracket(x: real, w: real)
    requires w > 0.0
    ensures (x / w).Floor as real * w <= x <= (x / w).Floor as real * w + w
  {
    var q := x / w;
    var k := q.Floor as real;
    assert k <= q <= k + 1.0;
    DivTimes(x, w);
    assert q * w == x;
    ScaleMono(k, q, w);
    assert k * w <= q * w;
    ScaleMono(q, k + 1.0, w);
    assert q * w <= (k + 1.0) * w;
    assert (k + 1.0) * w == k * w + w;
  }

  /** Dividing by a positive divisor and multiplying back gives the value again. */
  lemma DivTimes(x: real, w: real)
    requires w > 0.0
    ensures (x / w) * w == x
  {
  }

  /** getJumpImpulse: an upward force proportional to the base height; the ball and the scale play no part. */
  function JumpImpulse(scale: real, baseHeight: real): (f: real)
    ensures baseHeight > 0.0 ==> f < 0.0
  {
    -(baseHeight * (150.0 / 1000000.0))
  }

  /** With the base height 768 of js/engine.js the impulse is −0.1152 at every scale. */
  lemma JumpImpulseAtBaseHeight(scale: real, other: real)
    ensures JumpImpulse(scale, 768.0) == -0.1152
    ensures JumpImpulse(scale, 768.0) == JumpImpulse(other, 768.0)
  {
  }
}
