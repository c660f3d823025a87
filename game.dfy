/**
  The earlier single-file variant game.js: the same seeded stream and level
  width as js/, but a fixed 800 × 600 viewport with no scale factor, exactly
  floor(width / 200) platforms with no cut-off at the finish, a finish marker
  of drawn height and drawn centre, coins checked against every body except the
  ground and the ball (by identity), and a score line that reports one coin
  more than remain.
*/
module Game {

  import opened Wrappers
  import opened Utils
  import opened Geometry
  import Level
  import Engine

  // Constants of game.js: groundY = viewportHeight − 135 with viewportHeight 600.
  const GROUND_Y: real := 465.0
  const MIN_Y: real := 100.0
  /** maxY = groundY − 100. */
  const MAX_Y: real := 365.0
  const DELTA: real := 40.0
  const COIN_SIZE: real := 20.0
  /** Half the side of the coin query box: coinSize plus the exclusion margin of 5. */
  const QUERY_HALF: real := 25.0
  const BALL_RADIUS: real := 25.0
  /** The viewport height the side walls are given. */
  const WALL_HEIGHT: real := 600.0
  const JUMP_FORCE: real := -0.1

  // ---------------------------------------------------------------------------
  // Platform chain (generatePlatformsSeeded)
  // ---------------------------------------------------------------------------

  /** The horizontal gap drawn from r: rand() · (maxSpacingX − minSpacingX) + minSpacingX, with 300 and 200. */
  function Spacing(r: real): real
  {
    r * 100.0 + 200.0
  }

  function PlatformBody(id: BodyId, x: real, y: real): Body
  {
    Rectangle(id, Platform, x, y, 100.0, 40.0)
  }

  /**
    The walk from draw c after (lastX, lastY), n iterations to go: every
    iteration draws the gap and the direction and places a platform.
  */
  function Walk(rs: nat -> real, c: nat, n: nat, lastX: real, lastY: real, id: BodyId): (p: seq<Body>)
    decreases n
  {
    if n == 0 then []
    else
      var x := lastX + Spacing(rs(c));
      var y := Level.StepY(rs(c + 1) > 0.5, lastY, DELTA, MIN_Y, MAX_Y);
      [PlatformBody(id, x, y)] + Walk(rs, c + 2, n - 1, x, y, id + 1)
  }

  /**
    One iteration on the shared stream: the gap, then the direction, turning
    back at the band's edges, and the platform, which heads the rest of the walk.
  */
  method StepSeeded(rand: SeededRandom, lastX: real, lastY: real, id: BodyId,
                    ghost seed: int, ghost c: nat, ghost n: nat)
    returns (x: real, y: real, platform: Body)
    requires rand.s == StateAfter(seed, c) && n > 0
    modifies rand
    ensures rand.s == StateAfter(seed, c + 2)
    ensures Walk(Stream(seed), c, n, lastX, lastY, id) == [platform] + Walk(Stream(seed), c + 2, n - 1, x, y, id + 1)
  {
    var r := DrawNext(rand, seed, c);
    var spacingX := Spacing(r);
    x := lastX + spacingX;
    y := lastY;
    r := DrawNext(rand, seed, c + 1);
    if r > 0.5 {
      y := lastY - DELTA;
      if y < MIN_Y {
        y := lastY + DELTA;
      }
    } else {
      y := lastY + DELTA;
      if y > MAX_Y {
        y := lastY - DELTA;
      }
    }
    platform := Rectangle(id, Platform, x, y, 100.0, 40.0);
    assert platform == PlatformBody(id, x, y);
  }

  /** The platforms array is emptied and refilled with exactly count platforms, from lastX = 0 and lastY = maxY. */
  method GeneratePlatformsSeeded(count: nat, rand: SeededRandom, id0: BodyId, ghost seed: int, ghost c0: nat)
    returns (platforms: seq<Body>)
    requires rand.s == StateAfter(seed, c0)
    modifies rand
    ensures platforms == Walk(Stream(seed), c0, count, 0.0, MAX_Y, id0)
    ensures rand.s == StateAfter(seed, c0 + 2 * count)
  {
    ghost var rs := Stream(seed);
    ghost var whole := Walk(rs, c0, count, 0.0, MAX_Y, id0);
    ghost var c, n := c0, count;
    ghost var tail := whole;
    platforms := [];
    var lastX, lastY := 0.0, MAX_Y;
    var id := id0;
    var i := 0;
    while i < count
      invariant 0 <= i <= count && n == count - i && c == c0 + 2 * i
      invariant rand.s == StateAfter(seed, c)
      invariant tail == Walk(rs, c, n, lastX, lastY, id)
      invariant whole == platforms + tail
    {
      var x, y, platform := StepSeeded(rand, lastX, lastY, id, seed, c, n);
      ghost var next := Walk(rs, c + 2, n - 1, x, y, id + 1);
      Level.AppendAssoc(platforms, [platform], next);
      tail := next;
      lastX, lastY := x, y;
      platforms := platforms + [platform];
      c, n, id := c + 2, n - 1, id + 1;
      i := i + 1;
    }
    assert platforms + [] == platforms;
  }

  /** Every platform y lies in [minY, maxY]. */
  predicate Banded(p: seq<Body>)
  {
    forall k :: 0 <= k < |p| ==> MIN_Y <= p[k].y <= MAX_Y
  }

  /** Each platform lies a gap in [200, 300] right of the one before it, the first right of lastX. */
  predicate Gaps(p: seq<Body>, lastX: real)
  {
    && (|p| > 0 ==> 200.0 <= p[0].x - lastX <= 300.0)
    && (forall k :: 0 < k < |p| ==> 200.0 <= p[k].x - p[k - 1].x <= 300.0)
  }

  /** Ids and labels of the walk. */
  lemma {:induction false} WalkNumbered(rs: nat -> real, c: nat, n: nat, lastX: real, lastY: real, id: BodyId)
    ensures |Walk(rs, c, n, lastX, lastY, id)| == n
    ensures Level.Numbered(Walk(rs, c, n, lastX, lastY, id), id, Platform)
    decreases n
  {
    if n > 0 {
      var x := lastX + Spacing(rs(c));
      var y := Level.StepY(rs(c + 1) > 0.5, lastY, DELTA, MIN_Y, MAX_Y);
      WalkNumbered(rs, c + 2, n - 1, x, y, id + 1);
    }
  }

  lemma SpacingBounds(r: real)
    requires 0.0 <= r <= 1.0
    ensures 200.0 <= Spacing(r) <= 300.0
  {
  }

  /** With draws in [0, 1] every gap lies between 200 and 300. */
  lemma {:induction false} WalkGaps(rs: nat -> real, c: nat, n: nat, lastX: real, lastY: real, id: BodyId)
    requires InUnit(rs)
    ensures Gaps(Walk(rs, c, n, lastX, lastY, id), lastX)
    decreases n
  {
    if n > 0 {
      var x := lastX + Spacing(rs(c));
      SpacingBounds(rs(c));
      var y := Level.StepY(rs(c + 1) > 0.5, lastY, DELTA, MIN_Y, MAX_Y);
      WalkGaps(rs, c + 2, n - 1, x, y, id + 1);
    }
  }

  /** Each y is the one before it plus or minus 40, the first one step from lastY. */
  lemma {:induction false} WalkStepped(rs: nat -> real, c: nat, n: nat, lastX: real, lastY: real, id: BodyId)
    ensures Level.Stepped(Walk(rs, c, n, lastX, lastY, id), lastY, DELTA)
    decreases n
  {
    if n > 0 {
      var x := lastX + Spacing(rs(c));
      var y := Level.StepY(rs(c + 1) > 0.5, lastY, DELTA, MIN_Y, MAX_Y);
      WalkStepped(rs, c + 2, n - 1, x, y, id + 1);
    }
  }

  /** The band [100, 365] is more than two steps tall, so the walk never leaves it. */
  lemma {:induction false} WalkBanded(rs: nat -> real, c: nat, n: nat, lastX: real, lastY: real, id: BodyId)
    requires MIN_Y <= lastY <= MAX_Y
    ensures Banded(Walk(rs, c, n, lastX, lastY, id))
    decreases n
  {
    if n > 0 {
      var x := lastX + Spacing(rs(c));
      var up := rs(c + 1) > 0.5;
      Level.StepYInBand(up, lastY, DELTA, MIN_Y, MAX_Y);
      var y := Level.StepY(up, lastY, DELTA, MIN_Y, MAX_Y);
      WalkBanded(rs, c + 2, n - 1, x, y, id + 1);
    }
  }

  /** Gaps add up: the k-th platform (from 0) lies between 200·(k + 1) and 300·(k + 1) right of lastX. */
  lemma {:induction false} GapsReach(p: seq<Body>, lastX: real, k: nat)
    requires Gaps(p, lastX) && k < |p|
    ensures lastX + 200.0 * (k + 1) as real <= p[k].x <= lastX + 300.0 * (k + 1) as real
  {
    if k > 0 {
      GapsReach(p, lastX, k - 1);
      assert 200.0 <= p[k].x - p[k - 1].x <= 300.0;
    }
  }

  /** Under constant draws of one half every gap is 250: five platforms end at x = 1250. */
  lemma HalfDrawsWalk()
    ensures Walk(_ => 0.5, 1, 5, 0.0, MAX_Y, 0)[4].x == 1250.0
  {
    var rs: nat -> real := _ => 0.5;
    var p := Walk(rs, 1, 5, 0.0, MAX_Y, 0);
    WalkGaps(rs, 1, 5, 0.0, MAX_Y, 0);
    assert Spacing(0.5) == 250.0;
    assert p[0].x == 250.0;
    assert p[1..] == Walk(rs, 3, 4, p[0].x, p[0].y, 1);
    assert p[1].x == 500.0;
    assert p[2..] == Walk(rs, 5, 3, p[1].x, p[1].y, 2);
    assert p[2].x == 750.0;
    assert p[3..] == Walk(rs, 7, 2, p[2].x, p[2].y, 3);
    assert p[3].x == 1000.0;
    assert p[4..] == Walk(rs, 9, 1, p[3].x, p[3].y, 4);
  }

  // ---------------------------------------------------------------------------
  // Finish marker (generateFinishLineSeeded)
  // ---------------------------------------------------------------------------

  /**
    The finish for draws r1, r2: height floor(r1·100 + 100), width 40, at
    x = levelWidth − 100, centred at y = floor(r2·(groundY − height − 100) + 100).
  */
  function FinishBody(r1: real, r2: real, levelWidth: int, id: BodyId): Body
  {
    var height := (r1 * 100.0 + 100.0).Floor as real;
    var y := (r2 * (GROUND_Y - height - 100.0) + 100.0).Floor as real;
    Rectangle(id, FinishLine, levelWidth as real - 100.0, y, 40.0, height)
  }

  /** The finish marker takes two draws, values c and c + 1 of the stream. */
  method GenerateFinishLineSeeded(rand: SeededRandom, levelWidth: int, id: BodyId, ghost seed: int, ghost c: nat)
    returns (finish: Body)
    requires rand.s == StateAfter(seed, c)
    modifies rand
    ensures rand.s == StateAfter(seed, c + 2)
    ensures finish == FinishBody(Stream(seed)(c), Stream(seed)(c + 1), levelWidth, id)
  {
    var heightDraw := DrawNext(rand, seed, c);
    var yDraw := DrawNext(rand, seed, c + 1);
    finish := FinishBody(heightDraw, yDraw, levelWidth, id);
  }

  /**
    Where the finish lies: 40 wide at x = levelWidth − 100, a whole-number height
    from 100 to 200 (199 unless r1 = 1), centred on a whole-number y from 100 to
    groundY − height, so that its top is never above y = 0 and its bottom stays
    at least 50 above the ground line.
  */
  predicate FinishPlaced(f: Body, levelWidth: int)
  {
    && f.tag == FinishLine
    && f.x == levelWidth as real - 100.0
    && f.maxX - f.minX == 40.0
    && 100.0 <= f.maxY - f.minY <= 200.0
    && (f.maxY - f.minY).Floor as real == f.maxY - f.minY
    && f.y.Floor as real == f.y
    && 100.0 <= f.y <= GROUND_Y - (f.maxY - f.minY)
    && 0.0 <= f.minY
    && f.maxY <= GROUND_Y - 50.0
  }

  lemma FinishPlacement(r1: real, r2: real, levelWidth: int, id: BodyId)
    requires 0.0 <= r1 <= 1.0 && 0.0 <= r2 <= 1.0
    ensures FinishPlaced(FinishBody(r1, r2, levelWidth, id), levelWidth)
    ensures r1 < 1.0 ==> FinishBody(r1, r2, levelWidth, id).maxY - FinishBody(r1, r2, levelWidth, id).minY <= 199.0
  {
    var k := (r1 * 100.0 + 100.0).Floor;
    assert 100 <= k <= 200;
    assert r1 < 1.0 ==> k <= 199;
    var h := k as real;
    var span := GROUND_Y - h - 100.0;
    assert span == (365 - k) as real;
    Level.ScaleMono(0.0, r2, span);
    Level.ScaleMono(r2, 1.0, span);
    var m := (r2 * span + 100.0).Floor;
    assert 100 <= m <= 465 - k;
    var f := FinishBody(r1, r2, levelWidth, id);
    assert f.y == m as real;
    assert f.maxY - f.minY == h;
  }

  // ---------------------------------------------------------------------------
  // Coins (generateCoinsSeeded)
  // ---------------------------------------------------------------------------

  /** What the coin generator reads from the game's globals: the level width and the ball, if any. */
  datatype Scene = Scene(levelWidth: int, ball: Option<Body>)

  /** The coin x for a draw r: rand() · (levelWidth − 50) + 25. */
  function CoinX(r: real, levelWidth: int): real
  {
    r * (levelWidth as real - 50.0) + 25.0
  }

  /** The coin y for a draw r: rand() · (groundY − 20 − 30 − 50) + 50, that is r · 365 + 50. */
  function CoinY(r: real): real
  {
    r * 365.0 + 50.0
  }

  /** The region queried for a coin centred at (x, y): its bounds, 20 each way, grown by 5. */
  function QueryBox(x: real, y: real): Box
  {
    Box(x - QUERY_HALF, x + QUERY_HALF, y - QUERY_HALF, y + QUERY_HALF)
  }

  /**
    `b === ball`: the engine moves the ball but never changes its id or label,
    and no two bodies of one world share an id, so a body is the ball exactly
    when it carries the ball's id and the playerBall label.  The label keeps a
    ball from an earlier world, whose id a new world reuses, from matching.
  */
  predicate IsBall(b: Body, ball: Option<Body>)
  {
    ball.Some? && b.id == ball.value.id && b.tag == PlayerBall
  }

  /** The bodies the coin test counts: anything but the ground and the ball itself. */
  predicate Obstacle(b: Body, ball: Option<Body>)
  {
    b.tag != Ground && !IsBall(b, ball)
  }

  predicate AnyObstacle(hits: seq<Body>, ball: Option<Body>)
  {
    hits != [] && (Obstacle(hits[0], ball) || AnyObstacle(hits[1..], ball))
  }

  predicate Collides(bodies: seq<Body>, box: Box, ball: Option<Body>)
  {
    AnyObstacle(Region(bodies, box), ball)
  }

  lemma {:induction false} AnyObstacleIff(hits: seq<Body>, ball: Option<Body>)
    ensures AnyObstacle(hits, ball) <==> exists i :: 0 <= i < |hits| && Obstacle(hits[i], ball)
  {
    if hits != [] {
      AnyObstacleIff(hits[1..], ball);
      if Obstacle(hits[0], ball) {
        assert 0 <= 0 < |hits| && Obstacle(hits[0], ball);
      } else if exists i :: 0 <= i < |hits| && Obstacle(hits[i], ball) {
        var i :| 0 <= i < |hits| && Obstacle(hits[i], ball);
        assert hits[1..][i - 1] == hits[i];
      }
    }
  }

  /** No obstacle is found exactly when every obstacle of the world misses the box. */
  lemma CollidesIff(bodies: seq<Body>, box: Box, ball: Option<Body>)
    ensures !Collides(bodies, box, ball) <==> forall b :: b in bodies && Obstacle(b, ball) ==> !Overlaps(b, box)
  {
    var hits := Region(bodies, box);
    AnyObstacleIff(hits, ball);
    if Collides(bodies, box, ball) {
      var i :| 0 <= i < |hits| && Obstacle(hits[i], ball);
      RegionMember(bodies, box, hits[i]);
    } else {
      forall b | b in bodies && Obstacle(b, ball)
        ensures !Overlaps(b, box)
      {
        RegionMember(bodies, box, b);
      }
    }
  }

  /**
    In the world the generator sees (platforms, finish and coins, with the
    ground and the new ball not yet added) every body is an obstacle, so a spot
    is refused exactly when the query returns any body at all.
  */
  lemma CollidesInLevelWorld(bodies: seq<Body>, box: Box, ball: Option<Body>)
    requires forall b :: b in bodies ==> b.tag == Platform || b.tag == FinishLine || b.tag == Coin
    requires ball.Some? ==> ball.value.tag == PlayerBall
    ensures Collides(bodies, box, ball) <==> Region(bodies, box) != []
  {
    var hits := Region(bodies, box);
    AnyObstacleIff(hits, ball);
    if hits != [] {
      RegionMember(bodies, box, hits[0]);
      assert Obstacle(hits[0], ball);
    }
  }

  function CoinBody(id: BodyId, p: Point): Body
  {
    Circle(id, Coin, p.x, p.y, COIN_SIZE)
  }

  /** One attempt from draw c: both coordinates are drawn, then the bodies are queried. */
  function TryCoin(rs: nat -> real, c: nat, bodies: seq<Body>, sc: Scene): Option<Point>
  {
    var x := CoinX(rs(c), sc.levelWidth);
    var y := CoinY(rs(c + 1));
    if Collides(bodies, QueryBox(x, y), sc.ball) then None else Some(Point(x, y))
  }

  /** The outer loop with n coins to go, `placed` already placed; every attempt takes two draws. */
  function Coins(rs: nat -> real, c: nat, n: nat, world: seq<Body>, placed: seq<Body>, id0: BodyId, sc: Scene): Level.CoinRun
    decreases n, 0
  {
    if n == 0 then Level.CoinRun(placed, c)
    else Tries(rs, c, Level.MAX_ATTEMPTS, n - 1, world, placed, id0, sc)
  }

  /** The inner loop: k attempts left for the next coin, `rest` coins to go after it. */
  function Tries(rs: nat -> real, c: nat, k: nat, rest: nat, world: seq<Body>, placed: seq<Body>, id0: BodyId, sc: Scene): Level.CoinRun
    decreases rest, 1, k, 1
  {
    if k == 0 then Coins(rs, c, rest, world, placed, id0, sc)
    else Attempt(rs, c, k - 1, rest, world, placed, id0, sc)
  }

  /** One attempt, `left` more after it: an accepted spot places the coin and breaks out of the attempts. */
  function Attempt(rs: nat -> real, c: nat, left: nat, rest: nat, world: seq<Body>, placed: seq<Body>, id0: BodyId, sc: Scene): Level.CoinRun
    decreases rest, 1, left, 2
  {
    var t := TryCoin(rs, c, world + placed, sc);
    if t.Some? then Coins(rs, c + 2, rest, world, placed + [CoinBody(id0 + |placed|, t.value)], id0, sc)
    else Tries(rs, c + 2, left, rest, world, placed, id0, sc)
  }

  /** One attempt on the shared stream. */
  method TryCoinSeeded(rand: SeededRandom, sc: Scene, bodies: seq<Body>, ghost seed: int, ghost c: nat)
    returns (spot: Option<Point>)
    requires rand.s == StateAfter(seed, c)
    modifies rand
    ensures rand.s == StateAfter(seed, c + 2)
    ensures spot == TryCoin(Stream(seed), c, bodies, sc)
  {
    var r := DrawNext(rand, seed, c);
    var x := CoinX(r, sc.levelWidth);
    r := DrawNext(rand, seed, c + 1);
    var y := CoinY(r);
    var bodiesInRegion := Region(bodies, QueryBox(x, y));
    var collides := AnyObstacle(bodiesInRegion, sc.ball);
    spot := if collides then None else Some(Point(x, y));
  }

  /** Up to 50 attempts for the next coin, against the world and the coins placed so far. */
  method PlaceCoinSeeded(rand: SeededRandom, sc: Scene, world: seq<Body>, coins: seq<Body>, id0: BodyId,
                         ghost seed: int, ghost c0: nat, ghost rest: nat)
    returns (placed: seq<Body>, ghost c: nat)
    requires rand.s == StateAfter(seed, c0)
    modifies rand
    ensures rand.s == StateAfter(seed, c)
    ensures Tries(Stream(seed), c0, Level.MAX_ATTEMPTS, rest, world, coins, id0, sc) == Coins(Stream(seed), c, rest, world, placed, id0, sc)
  {
    ghost var rs := Stream(seed);
    ghost var whole := Tries(rs, c0, Level.MAX_ATTEMPTS, rest, world, coins, id0, sc);
    c := c0;
    var attempt := 0;
    while attempt < Level.MAX_ATTEMPTS
      invariant 0 <= attempt <= Level.MAX_ATTEMPTS
      invariant rand.s == StateAfter(seed, c)
      invariant whole == Tries(rs, c, Level.MAX_ATTEMPTS - attempt, rest, world, coins, id0, sc)
    {
      assert whole == Attempt(rs, c, Level.MAX_ATTEMPTS - attempt - 1, rest, world, coins, id0, sc);
      var spot := TryCoinSeeded(rand, sc, world + coins, seed, c);
      c := c + 2;
      if spot.Some? {
        var coin := Circle(id0 + |coins|, Coin, spot.value.x, spot.value.y, COIN_SIZE);
        return coins + [coin], c;
      }
      attempt := attempt + 1;
    }
    placed := coins;
  }

  /** The coins array is emptied and refilled; each accepted coin joins the world before the next query. */
  method GenerateCoinsSeeded(count: nat, rand: SeededRandom, sc: Scene, world: seq<Body>, id0: BodyId,
                             ghost seed: int, ghost c0: nat)
    returns (coins: seq<Body>, ghost c: nat)
    requires rand.s == StateAfter(seed, c0)
    modifies rand
    ensures Level.CoinRun(coins, c) == Coins(Stream(seed), c0, count, world, [], id0, sc)
    ensures rand.s == StateAfter(seed, c)
  {
    ghost var rs := Stream(seed);
    ghost var whole := Coins(rs, c0, count, world, [], id0, sc);
    c := c0;
    coins := [];
    var i := 0;
    while i < count
      invariant 0 <= i <= count
      invariant rand.s == StateAfter(seed, c)
      invariant whole == Coins(rs, c, count - i, world, coins, id0, sc)
    {
      coins, c := PlaceCoinSeeded(rand, sc, world, coins, id0, seed, c, count - i - 1);
      i := i + 1;
    }
  }

  /** A spot in the drawing area, x from 25 to levelWidth − 25 and y from 50 to 415, clear of every obstacle. */
  predicate SpotOk(p: Point, bodies: seq<Body>, sc: Scene)
  {
    && 25.0 <= p.x <= sc.levelWidth as real - 25.0
    && 50.0 <= p.y <= 415.0
    && forall b :: b in bodies && Obstacle(b, sc.ball) ==> !Overlaps(b, QueryBox(p.x, p.y))
  }

  /** A draw in [0, 1] puts the coin x between 25 and levelWidth − 25. */
  lemma CoinXBounds(r: real, levelWidth: int)
    requires 0.0 <= r <= 1.0 && levelWidth >= 50
    ensures 25.0 <= CoinX(r, levelWidth) <= levelWidth as real - 25.0
  {
    var span := levelWidth as real - 50.0;
    assert CoinX(r, levelWidth) == r * span + 25.0;
    UnitScale(r, span);
  }

  lemma UnitScale(r: real, s: real)
    requires 0.0 <= r <= 1.0 && s >= 0.0
    ensures 0.0 <= r * s <= s
  {
    Level.ScaleMono(0.0, r, s);
    Level.ScaleMono(r, 1.0, s);
  }

  lemma TryCoinSound(rs: nat -> real, c: nat, bodies: seq<Body>, sc: Scene)
    requires InUnit(rs) && sc.levelWidth >= 50
    ensures TryCoin(rs, c, bodies, sc).Some? ==> SpotOk(TryCoin(rs, c, bodies, sc).value, bodies, sc)
  {
    var x := CoinX(rs(c), sc.levelWidth);
    var y := CoinY(rs(c + 1));
    CoinXBounds(rs(c), sc.levelWidth);
    assert 50.0 <= y <= 415.0;
    CollidesIff(bodies, QueryBox(x, y), sc.ball);
    assert TryCoin(rs, c, bodies, sc).Some? ==> TryCoin(rs, c, bodies, sc).value == Point(x, y);
  }

  /**
    Unlike js/level.js, an attempt is not cut off at the finish x: with the
    world still empty every spot is accepted, and a first draw of 0.99 or more
    puts the coin past levelWidth − 100.
  */
  lemma TryCoinPastFinish(rs: nat -> real, c: nat, sc: Scene)
    requires 1000 <= sc.levelWidth <= 5001 && 0.99 <= rs(c) <= 1.0
    ensures TryCoin(rs, c, [], sc).Some?
    ensures TryCoin(rs, c, [], sc).value.x > sc.levelWidth as real - 100.0
  {
    var span := sc.levelWidth as real - 50.0;
    Level.ScaleMono(0.99, rs(c), span);
    var x := CoinX(rs(c), sc.levelWidth);
    assert x >= 0.99 * span + 25.0;
    assert Region([], QueryBox(x, CoinY(rs(c + 1)))) == [];
    assert !Collides([], QueryBox(x, CoinY(rs(c + 1))), sc.ball);
  }

  /** Each coin sits on a spot clear of the world and of every coin placed before it. */
  predicate CoinsPlaced(world: seq<Body>, cs: seq<Body>, sc: Scene)
  {
    forall k :: 0 <= k < |cs| ==> SpotOk(Point(cs[k].x, cs[k].y), world + cs[..k], sc)
  }

  lemma CoinsPlacedSnoc(world: seq<Body>, placed: seq<Body>, b: Body, sc: Scene)
    requires CoinsPlaced(world, placed, sc)
    requires SpotOk(Point(b.x, b.y), world + placed, sc)
    ensures CoinsPlaced(world, placed + [b], sc)
  {
    var q := placed + [b];
    forall k | 0 <= k < |q|
      ensures SpotOk(Point(q[k].x, q[k].y), world + q[..k], sc)
    {
      if k < |placed| {
        assert q[..k] == placed[..k];
        assert q[k] == placed[k];
      } else {
        assert q[..k] == placed;
      }
    }
  }

  /** The outer loop adds at most one coin per iteration, numbered after those placed before it. */
  lemma {:induction false} CoinsShape(rs: nat -> real, c: nat, n: nat, world: seq<Body>, placed: seq<Body>, id0: BodyId, sc: Scene)
    requires Level.Numbered(placed, id0, Coin)
    ensures |placed| <= |Coins(rs, c, n, world, placed, id0, sc).coins| <= |placed| + n
    ensures Level.Numbered(Coins(rs, c, n, world, placed, id0, sc).coins, id0, Coin)
    decreases n, 0
  {
    if n > 0 {
      TriesShape(rs, c, Level.MAX_ATTEMPTS, n - 1, world, placed, id0, sc);
    }
  }

  lemma {:induction false} TriesShape(rs: nat -> real, c: nat, k: nat, rest: nat, world: seq<Body>, placed: seq<Body>, id0: BodyId, sc: Scene)
    requires Level.Numbered(placed, id0, Coin)
    ensures |placed| <= |Tries(rs, c, k, rest, world, placed, id0, sc).coins| <= |placed| + rest + 1
    ensures Level.Numbered(Tries(rs, c, k, rest, world, placed, id0, sc).coins, id0, Coin)
    decreases rest, 1, k
  {
    if k == 0 {
      CoinsShape(rs, c, rest, world, placed, id0, sc);
    } else {
      assert Tries(rs, c, k, rest, world, placed, id0, sc) == Attempt(rs, c, k - 1, rest, world, placed, id0, sc);
      var t := TryCoin(rs, c, world + placed, sc);
      if t.Some? {
        var coin := CoinBody(id0 + |placed|, t.value);
        Level.NumberedSnoc(placed, coin, id0, Coin);
        CoinsShape(rs, c + 2, rest, world, placed + [coin], id0, sc);
      } else {
        TriesShape(rs, c + 2, k - 1, rest, world, placed, id0, sc);
      }
    }
  }

  lemma {:induction false} CoinsSound(rs: nat -> real, c: nat, n: nat, world: seq<Body>, placed: seq<Body>, id0: BodyId, sc: Scene)
    requires InUnit(rs) && sc.levelWidth >= 50
    requires CoinsPlaced(world, placed, sc)
    ensures CoinsPlaced(world, Coins(rs, c, n, world, placed, id0, sc).coins, sc)
    decreases n, 0
  {
    if n > 0 {
      TriesSound(rs, c, Level.MAX_ATTEMPTS, n - 1, world, placed, id0, sc);
    }
  }

  lemma {:induction false} TriesSound(rs: nat -> real, c: nat, k: nat, rest: nat, world: seq<Body>, placed: seq<Body>, id0: BodyId, sc: Scene)
    requires InUnit(rs) && sc.levelWidth >= 50
    requires CoinsPlaced(world, placed, sc)
    ensures CoinsPlaced(world, Tries(rs, c, k, rest, world, placed, id0, sc).coins, sc)
    decreases rest, 1, k
  {
    if k == 0 {
      CoinsSound(rs, c, rest, world, placed, id0, sc);
    } else {
      assert Tries(rs, c, k, rest, world, placed, id0, sc) == Attempt(rs, c, k - 1, rest, world, placed, id0, sc);
      var t := TryCoin(rs, c, world + placed, sc);
      if t.Some? {
        TryCoinSound(rs, c, world + placed, sc);
        var coin := CoinBody(id0 + |placed|, t.value);
        CoinsPlacedSnoc(world, placed, coin, sc);
        CoinsSound(rs, c + 2, rest, world, placed + [coin], id0, sc);
      } else {
        TriesSound(rs, c + 2, k - 1, rest, world, placed, id0, sc);
      }
    }
  }

  /** The draws the outer loop uses: from one to 50 attempts per coin, two draws each. */
  lemma {:induction false} CoinsDraws(rs: nat -> real, c: nat, n: nat, world: seq<Body>, placed: seq<Body>, id0: BodyId, sc: Scene)
    ensures c + 2 * n <= Coins(rs, c, n, world, placed, id0, sc).cursor <= c + 2 * Level.MAX_ATTEMPTS * n
    decreases n, 0
  {
    if n > 0 {
      TriesDraws(rs, c, Level.MAX_ATTEMPTS, n - 1, world, placed, id0, sc);
    }
  }

  lemma {:induction false} TriesDraws(rs: nat -> real, c: nat, k: nat, rest: nat, world: seq<Body>, placed: seq<Body>, id0: BodyId, sc: Scene)
    requires k > 0
    ensures c + 2 + 2 * rest <= Tries(rs, c, k, rest, world, placed, id0, sc).cursor <= c + 2 * k + 2 * Level.MAX_ATTEMPTS * rest
    decreases rest, 1, k
  {
    assert Tries(rs, c, k, rest, world, placed, id0, sc) == Attempt(rs, c, k - 1, rest, world, placed, id0, sc);
    var t := TryCoin(rs, c, world + placed, sc);
    if t.Some? {
      var coin := CoinBody(id0 + |placed|, t.value);
      CoinsDraws(rs, c + 2, rest, world, placed + [coin], id0, sc);
    } else if k > 1 {
      TriesDraws(rs, c + 2, k - 1, rest, world, placed, id0, sc);
    } else {
      CoinsDraws(rs, c + 2, rest, world, placed, id0, sc);
    }
  }

  /** Coins placed from nothing against a world lie in the drawing area, clear of the world's obstacles and of each other. */
  predicate CoinsClear(cs: seq<Body>, world: seq<Body>, sc: Scene)
  {
    && (forall k :: 0 <= k < |cs| ==> 25.0 <= cs[k].x <= sc.levelWidth as real - 25.0 && 50.0 <= cs[k].y <= 415.0)
    && (forall k, b :: 0 <= k < |cs| && b in world && Obstacle(b, sc.ball) ==> !Overlaps(b, QueryBox(cs[k].x, cs[k].y)))
    && (forall k, j :: 0 <= j < k < |cs| ==> !Overlaps(cs[j], QueryBox(cs[k].x, cs[k].y)))
  }

  lemma CoinsClearOfWorld(rs: nat -> real, c: nat, count: nat, world: seq<Body>, id0: BodyId, sc: Scene)
    requires InUnit(rs) && sc.levelWidth >= 50
    requires sc.ball.Some? ==> sc.ball.value.tag == PlayerBall
    ensures CoinsClear(Coins(rs, c, count, world, [], id0, sc).coins, world, sc)
  {
    CoinsSound(rs, c, count, world, [], id0, sc);
    CoinsShape(rs, c, count, world, [], id0, sc);
    var cs := Coins(rs, c, count, world, [], id0, sc).coins;
    forall k, b | 0 <= k < |cs| && b in world && Obstacle(b, sc.ball)
      ensures !Overlaps(b, QueryBox(cs[k].x, cs[k].y))
    {
      assert SpotOk(Point(cs[k].x, cs[k].y), world + cs[..k], sc);
      assert b in world + cs[..k];
    }
    forall k, j | 0 <= j < k < |cs|
      ensures !Overlaps(cs[j], QueryBox(cs[k].x, cs[k].y))
    {
      assert SpotOk(Point(cs[k].x, cs[k].y), world + cs[..k], sc);
      assert cs[j] in world + cs[..k];
      assert cs[j].tag == Coin;
    }
  }

  // ---------------------------------------------------------------------------
  // The level (generateLevelFromSeed)
  // ---------------------------------------------------------------------------

  datatype Layout = Layout(levelWidth: int, platforms: seq<Body>, finish: Body, coins: seq<Body>)

  /** A layout and the number of draws made to build it. */
  datatype Built = Built(layout: Layout, cursor: nat)

  /**
    generateLevelFromSeed on the values of the stream: the width first, then
    exactly count platforms (draws 1 to 2·count), the finish (two draws), and
    4·count coins against the platforms, the finish and the coins before them.
    Bodies are numbered in the order they join the world.
  */
  function Generate(rs: nat -> real, ball: Option<Body>): Built
  {
    Build(rs, RandomBetween(rs(0), 1000, 5000), ball)
  }

  /** Everything after the width is drawn. */
  function Build(rs: nat -> real, width: int, ball: Option<Body>): Built
  {
    var count := if width < 0 then 0 else Engine.PlatformCount(width);
    var platforms := Walk(rs, 1, count, 0.0, MAX_Y, 0);
    var c := 1 + 2 * count;
    var finish := FinishBody(rs(c), rs(c + 1), width, count);
    var run := Coins(rs, c + 2, count * 4, platforms + [finish], [], count + 1, Scene(width, ball));
    Built(Layout(width, platforms, finish, run.coins), run.cursor)
  }

  /** Width, counts and numbering of a level: platforms 0 .. count − 1, the finish count, the coins after it. */
  predicate Counted(l: Layout)
  {
    && 1000 <= l.levelWidth <= 5001
    && 5 <= Engine.PlatformCount(l.levelWidth) <= 25
    && |l.platforms| == Engine.PlatformCount(l.levelWidth)
    && |l.coins| <= 4 * |l.platforms|
    && Level.Numbered(l.platforms, 0, Platform)
    && l.finish.id == |l.platforms|
    && Level.Numbered(l.coins, |l.platforms| + 1, Coin)
  }

  /** The platforms form a chain from x = 0 with gaps of 200 to 300, inside the band, stepping by 40 from maxY. */
  predicate Chained(l: Layout)
  {
    Gaps(l.platforms, 0.0) && Banded(l.platforms) && Level.Stepped(l.platforms, MAX_Y, DELTA)
  }

  lemma GenerateCounted(rs: nat -> real, ball: Option<Body>)
    requires InUnit(rs)
    ensures Counted(Generate(rs, ball).layout)
  {
    var width := RandomBetween(rs(0), 1000, 5000);
    assert 1000 <= width <= 5001;
    BuildCounted(rs, width, ball);
  }

  /** The counts and numbering for a width the first draw can give. */
  lemma BuildCounted(rs: nat -> real, width: int, ball: Option<Body>)
    requires 1000 <= width <= 5001
    ensures Counted(Build(rs, width, ball).layout)
  {
    var count := Engine.PlatformCount(width);
    Engine.PlatformCountRange(width);
    var platforms := Walk(rs, 1, count, 0.0, MAX_Y, 0);
    WalkNumbered(rs, 1, count, 0.0, MAX_Y, 0);
    var finish := FinishBody(rs(1 + 2 * count), rs(1 + 2 * count + 1), width, count);
    var sc := Scene(width, ball);
    CoinsShape(rs, 1 + 2 * count + 2, count * 4, platforms + [finish], [], count + 1, sc);
    var cs := Coins(rs, 1 + 2 * count + 2, count * 4, platforms + [finish], [], count + 1, sc).coins;
    assert Build(rs, width, ball).layout == Layout(width, platforms, finish, cs);
  }

  /** No coin of a level is listed twice, so that removing one by identity removes exactly one. */
  lemma GenerateCoinsDistinct(rs: nat -> real, ball: Option<Body>)
    requires InUnit(rs)
    ensures Engine.Distinct(Generate(rs, ball).layout.coins)
  {
    GenerateCounted(rs, ball);
    var l := Generate(rs, ball).layout;
    Engine.NumberedDistinct(l.coins, |l.platforms| + 1, Coin);
  }

  lemma GenerateChained(rs: nat -> real, ball: Option<Body>)
    requires InUnit(rs)
    ensures Chained(Generate(rs, ball).layout)
  {
    var width := RandomBetween(rs(0), 1000, 5000);
    var count := if width < 0 then 0 else Engine.PlatformCount(width);
    WalkGaps(rs, 1, count, 0.0, MAX_Y, 0);
    WalkBanded(rs, 1, count, 0.0, MAX_Y, 0);
    WalkStepped(rs, 1, count, 0.0, MAX_Y, 0);
  }

  /** The finish marker of a level sits as FinishPlaced says, whatever the stream. */
  lemma GenerateFinish(rs: nat -> real, ball: Option<Body>)
    requires InUnit(rs)
    ensures FinishPlaced(Generate(rs, ball).layout.finish, Generate(rs, ball).layout.levelWidth)
  {
    var width := RandomBetween(rs(0), 1000, 5000);
    var count := if width < 0 then 0 else Engine.PlatformCount(width);
    FinishPlacement(rs(1 + 2 * count), rs(1 + 2 * count + 1), width, count);
  }

  /**
    The coins of a level lie in the drawing area and keep clear of the finish,
    of every platform and of each other; nothing keeps them left of the finish.
  */
  lemma GenerateCoinsClear(rs: nat -> real, ball: Option<Body>)
    requires InUnit(rs) && (ball.Some? ==> ball.value.tag == PlayerBall)
    ensures CoinsClear(Generate(rs, ball).layout.coins, Generate(rs, ball).layout.platforms + [Generate(rs, ball).layout.finish],
                       Scene(Generate(rs, ball).layout.levelWidth, ball))
  {
    var width := RandomBetween(rs(0), 1000, 5000);
    var count := if width < 0 then 0 else Engine.PlatformCount(width);
    var platforms := Walk(rs, 1, count, 0.0, MAX_Y, 0);
    var finish := FinishBody(rs(1 + 2 * count), rs(1 + 2 * count + 1), width, count);
    CoinsClearOfWorld(rs, 1 + 2 * count + 2, count * 4, platforms + [finish], count + 1, Scene(width, ball));
  }

  /** The last platform lies beyond levelWidth − 200 and at most 300 per platform from the start. */
  predicate ReachesEnd(l: Layout)
  {
    |l.platforms| > 0 &&
    l.levelWidth as real - 200.0 < l.platforms[|l.platforms| - 1].x <= 300.0 * |l.platforms| as real
  }

  /**
    With exactly floor(width / 200) platforms and gaps of at least 200, the last
    platform lies more than levelWidth − 200 from the start, and may lie
    past the finish x and the right wall: nothing cuts the chain off.
  */
  lemma GenerateLastPlatform(rs: nat -> real, ball: Option<Body>)
    requires InUnit(rs)
    ensures ReachesEnd(Generate(rs, ball).layout)
  {
    var width := RandomBetween(rs(0), 1000, 5000);
    assert 1000 <= width <= 5001;
    var count := Engine.PlatformCount(width);
    Engine.PlatformCountRange(width);
    var platforms := Walk(rs, 1, count, 0.0, MAX_Y, 0);
    WalkNumbered(rs, 1, count, 0.0, MAX_Y, 0);
    WalkGaps(rs, 1, count, 0.0, MAX_Y, 0);
    GapsReach(platforms, 0.0, count - 1);
    assert width < 200 * (count + 1);
    assert Generate(rs, ball).layout.platforms == platforms;
  }

  /** The display of collectCoin and startGameWithSeed: the score, then the number of coins listed plus one. */
  function ScoreLineAsWritten(t: Engine.Tally): Engine.Shown
  {
    Engine.Shown(t.score, |t.coins| + 1)
  }

  /**
    The count shown is always one more than the coins left, so it never reaches
    0: with every coin collected it still shows 1.
  */
  lemma ScoreLineOffByOne(t: Engine.Tally)
    ensures ScoreLineAsWritten(t).remaining == Engine.ScoreLine(t).remaining + 1
    ensures ScoreLineAsWritten(t).remaining >= 1
    ensures t.coins == [] ==> ScoreLineAsWritten(t).remaining == 1 && Engine.ScoreLine(t).remaining == 0
  {
  }

  // ---------------------------------------------------------------------------
  // Supporting contacts (isBallOnGroundOrPlatform)
  // ---------------------------------------------------------------------------

  function BallBody(id: BodyId): Body
  {
    Circle(id, PlayerBall, 10.0, 10.0, BALL_RADIUS)
  }

  predicate IsSurface(b: Body)
  {
    b.tag == Ground || b.tag == Platform
  }

  /** A pair with the current ball on one side and ground or a platform on the other. */
  predicate Supports(p: Engine.Pair, ball: Option<Body>)
  {
    (IsBall(p.a, ball) && IsSurface(p.b)) || (IsBall(p.b, ball) && IsSurface(p.a))
  }

  /**
    The order of a pair never matters here, only a body with the current ball's
    id counts, and wherever the engine has moved the ball, its contact with
    ground or a platform supports it.
  */
  lemma SupportsSymmetric(a: Body, b: Body, ball: Option<Body>)
    ensures Supports(Engine.Pair(a, b), ball) == Supports(Engine.Pair(b, a), ball)
    ensures Supports(Engine.Pair(a, b), ball) ==> ball.Some? && (a.id == ball.value.id || b.id == ball.value.id)
    ensures forall x: real, y: real :: ball.Some? && IsSurface(b) ==>
      Supports(Engine.Pair(Circle(ball.value.id, PlayerBall, x, y, BALL_RADIUS), b), ball)
  {
  }

  /**
    Where game.js and js/engine.js disagree, for the ball a session starts with,
    moved by the engine: touching a platform from below counts as supported here
    and not there; resting on its top counts in both.
  */
  lemma SupportsWithoutTolerance()
    ensures var platform := Rectangle(1, Platform, 100.0, 100.0, 100.0, 40.0);
      var moved := Circle(5, PlayerBall, 100.0, 145.0, BALL_RADIUS);
      Supports(Engine.Pair(moved, platform), Some(BallBody(5))) && !Engine.IsBallOnGroundOrPlatform(Engine.Pair(moved, platform))
    ensures var platform := Rectangle(1, Platform, 100.0, 100.0, 100.0, 40.0);
      var moved := Circle(5, PlayerBall, 100.0, 55.0, BALL_RADIUS);
      Supports(Engine.Pair(platform, moved), Some(BallBody(5))) && Engine.IsBallOnGroundOrPlatform(Engine.Pair(platform, moved))
  {
  }

  predicate AnySupports(pairs: seq<Engine.Pair>, ball: Option<Body>)
  {
    pairs != [] && (Supports(pairs[0], ball) || AnySupports(pairs[1..], ball))
  }

  lemma {:induction false} AnySupportsIff(pairs: seq<Engine.Pair>, ball: Option<Body>)
    ensures AnySupports(pairs, ball) <==> exists i :: 0 <= i < |pairs| && Supports(pairs[i], ball)
  {
    if pairs != [] {
      AnySupportsIff(pairs[1..], ball);
      if Supports(pairs[0], ball) {
        assert 0 <= 0 < |pairs| && Supports(pairs[0], ball);
      } else if exists i :: 0 <= i < |pairs| && Supports(pairs[i], ball) {
        var i :| 0 <= i < |pairs| && Supports(pairs[i], ball);
        assert pairs[1..][i - 1] == pairs[i];
      }
    }
  }

  /**
    A collisionActive batch holding the current ball, at whatever position the
    engine has moved it to, against ground or a platform sets canJump
    (CollisionActive sets the flag exactly when AnySupports holds).
  */
  lemma MovedBallGrounds(pairs: seq<Engine.Pair>, i: nat, ball: Body, x: real, y: real)
    requires i < |pairs| && IsSurface(pairs[i].b)
    requires pairs[i].a == Circle(ball.id, PlayerBall, x, y, BALL_RADIUS)
    ensures AnySupports(pairs, Some(ball))
    ensures AnySupports(pairs[..i] + [Engine.Pair(pairs[i].b, pairs[i].a)] + pairs[i + 1..], Some(ball))
  {
    AnySupportsIff(pairs, Some(ball));
    assert Supports(pairs[i], Some(ball));
    var swapped := pairs[..i] + [Engine.Pair(pairs[i].b, pairs[i].a)] + pairs[i + 1..];
    AnySupportsIff(swapped, Some(ball));
    assert swapped[i] == Engine.Pair(pairs[i].b, pairs[i].a);
    assert Supports(swapped[i], Some(ball));
  }

  // ---------------------------------------------------------------------------
  // Seeded generation and the session
  // ---------------------------------------------------------------------------

  /**
    generateLevelFromSeed: a fresh stream and the width, then the platforms, the
    finish and the coins in that order on the same stream.
  */
  method GenerateLevelFromSeed(seed: int, ball: Option<Body>) returns (level: Layout, ghost cursor: nat)
    ensures Built(level, cursor) == Generate(Stream(seed), ball)
    ensures level == Generate(Stream(seed), ball).layout
  {
    var rand, width := Level.GenerateLevelFromSeed(seed);
    level, cursor := BuildSeeded(rand, width, ball, seed);
    BuildParts(Stream(seed), width, ball);
  }

  /** Build with a width that is not negative, written out part by part. */
  lemma BuildParts(rs: nat -> real, width: nat, ball: Option<Body>)
    ensures var count := Engine.PlatformCount(width);
      var platforms := Walk(rs, 1, count, 0.0, MAX_Y, 0);
      var finish := FinishBody(rs(1 + 2 * count), rs(1 + 2 * count + 1), width, count);
      var run := Coins(rs, 1 + 2 * count + 2, count * 4, platforms + [finish], [], count + 1, Scene(width, ball));
      Build(rs, width, ball) == Built(Layout(width, platforms, finish, run.coins), run.cursor)
  {
  }

  /** The generators after the width, on a stream that has made one call. */
  method BuildSeeded(rand: SeededRandom, width: nat, ball: Option<Body>, ghost seed: int) returns (level: Layout, ghost cursor: nat)
    requires rand.s == StateAfter(seed, 1)
    modifies rand
    ensures level.levelWidth == width
    ensures level.platforms == Walk(Stream(seed), 1, Engine.PlatformCount(width), 0.0, MAX_Y, 0)
    ensures level.finish == FinishBody(Stream(seed)(1 + 2 * Engine.PlatformCount(width)),
                                       Stream(seed)(1 + 2 * Engine.PlatformCount(width) + 1), width, Engine.PlatformCount(width))
    ensures Level.CoinRun(level.coins, cursor)
         == Coins(Stream(seed), 1 + 2 * Engine.PlatformCount(width) + 2, Engine.PlatformCount(width) * 4,
                  level.platforms + [level.finish], [], Engine.PlatformCount(width) + 1, Scene(width, ball))
  {
    var platformCount := Engine.PlatformCount(width);
    var coinCount := platformCount * 4;
    var platforms := GeneratePlatformsSeeded(platformCount, rand, 0, seed, 1);
    ghost var c := 1 + 2 * platformCount;
    var finish := GenerateFinishLineSeeded(rand, width, platformCount, seed, c);
    var sc := Scene(width, ball);
    var coins;
    coins, cursor := GenerateCoinsSeeded(coinCount, rand, sc, platforms + [finish], platformCount + 1, seed, c + 2);
    level := Layout(width, platforms, finish, coins);
  }

  class Session {
    var score: int
    var canJump: bool
    var coins: seq<Body>
    var platforms: seq<Body>
    var levelWidth: int
    /** runner.enabled; false while there is no runner. */
    var runnerEnabled: bool
    /**
      The ball global as created, None before the first game; the engine moves
      the body, and pairs are matched against it by id and label (IsBall).
    */
    var ball: Option<Body>

    /** The script's initial values: score 0, canJump false, empty arrays, levelWidth 2400, no ball or runner. */
    constructor ()
      ensures score == 0 && !canJump && coins == [] && platforms == [] && levelWidth == 2400
      ensures !runnerEnabled && ball == None
    {
      score := 0;
      canJump := false;
      coins := [];
      platforms := [];
      levelWidth := 2400;
      runnerEnabled := false;
      ball := None;
    }

    function Tallied(): Engine.Tally
      reads this
    {
      Engine.Tally(score, coins, runnerEnabled)
    }

    /**
      startGameWithSeed: flags reset, the level generated while the previous
      ball (if any) is still the ball global, then the new ball and the walls,
      and the score line written.
    */
    method StartGameWithSeed(seed: int) returns (level: Layout, walls: seq<Body>, written: Engine.Shown, ghost cursor: nat)
      modifies this
      ensures Built(level, cursor) == Generate(Stream(seed), old(ball))
      ensures score == 0 && !canJump && runnerEnabled
      ensures coins == level.coins && platforms == level.platforms && levelWidth == level.levelWidth
      ensures ball == Some(BallBody(|level.platforms| + 1 + |level.coins|))
      ensures walls == Level.Walls(levelWidth as real, WALL_HEIGHT, GROUND_Y, |level.platforms| + 2 + |level.coins|)
      ensures written == ScoreLineAsWritten(Tallied())
    {
      level, cursor := GenerateLevelFromSeed(seed, ball);
      canJump := false;
      score := 0;
      runnerEnabled := true;
      coins := level.coins;
      platforms := level.platforms;
      levelWidth := level.levelWidth;
      var ballId := |platforms| + 1 + |coins|;
      ball := Some(Circle(ballId, PlayerBall, 10.0, 10.0, BALL_RADIUS));
      walls := Level.Walls(levelWidth as real, WALL_HEIGHT, GROUND_Y, ballId + 1);
      written := Engine.Shown(score, |coins| + 1);
    }

    /** collectCoin, writing the score line as game.js does when the coin was still listed. */
    method CollectCoin(coin: Body) returns (written: Option<Engine.Shown>)
      modifies this
      ensures Tallied() == Engine.Collect(old(Tallied()), coin)
      ensures written == if coin in old(coins) then Some(ScoreLineAsWritten(Tallied())) else None
      ensures canJump == old(canJump) && platforms == old(platforms)
      ensures levelWidth == old(levelWidth) && ball == old(ball)
    {
      written := None;
      var index := Engine.IndexOf(coins, coin);
      if index != -1 {
        coins := coins[..index] + coins[index + 1..];
        score := score + 1;
        written := Some(Engine.Shown(score, |coins| + 1));
      }
    }

    /** The collisionStart handler: the same pair rules as js/engine.js. */
    method CollisionStart(pairs: seq<Engine.Pair>)
      modifies this
      ensures Tallied() == Engine.AfterStart(old(Tallied()), pairs)
      ensures canJump == old(canJump) && platforms == old(platforms)
      ensures levelWidth == old(levelWidth) && ball == old(ball)
    {
      ghost var whole := Engine.AfterStart(Tallied(), pairs);
      var i := 0;
      while i < |pairs|
        invariant 0 <= i <= |pairs|
        invariant Engine.AfterStart(Tallied(), pairs[i..]) == whole
        invariant canJump == old(canJump) && platforms == old(platforms)
        invariant levelWidth == old(levelWidth) && ball == old(ball)
      {
        var pair := pairs[i];
        ghost var before := Tallied();
        assert pairs[i..][1..] == pairs[i + 1..];
        var bodyA, bodyB := pair.a, pair.b;
        if (bodyA.tag == PlayerBall && bodyB.tag == FinishLine) || (bodyB.tag == PlayerBall && bodyA.tag == FinishLine) {
          runnerEnabled := false;
        }
        if bodyA.tag == PlayerBall && bodyB.tag == Coin {
          var _ := CollectCoin(bodyB);
        }
        if bodyB.tag == PlayerBall && bodyA.tag == Coin {
          var _ := CollectCoin(bodyA);
        }
        assert Tallied() == Engine.StartPair(before, pair);
        i := i + 1;
      }
    }

    /** The collisionActive handler: a pair of the current ball with ground or a platform sets canJump. */
    method CollisionActive(pairs: seq<Engine.Pair>)
      modifies this
      ensures canJump == (old(canJump) || AnySupports(pairs, ball))
      ensures Tallied() == old(Tallied()) && platforms == old(platforms)
      ensures levelWidth == old(levelWidth) && ball == old(ball)
    {
      var i := 0;
      while i < |pairs|
        invariant 0 <= i <= |pairs|
        invariant (canJump || AnySupports(pairs[i..], ball)) == (old(canJump) || AnySupports(pairs, ball))
        invariant Tallied() == old(Tallied()) && platforms == old(platforms)
        invariant levelWidth == old(levelWidth) && ball == old(ball)
      {
        assert pairs[i..][1..] == pairs[i + 1..];
        if Supports(pairs[i], ball) {
          canJump := true;
        }
        i := i + 1;
      }
    }

    /** The collisionEnd handler: such a pair clears canJump. */
    method CollisionEnd(pairs: seq<Engine.Pair>)
      modifies this
      ensures canJump == (old(canJump) && !AnySupports(pairs, ball))
      ensures Tallied() == old(Tallied()) && platforms == old(platforms)
      ensures levelWidth == old(levelWidth) && ball == old(ball)
    {
      var i := 0;
      while i < |pairs|
        invariant 0 <= i <= |pairs|
        invariant (canJump && !AnySupports(pairs[i..], ball)) == (old(canJump) && !AnySupports(pairs, ball))
        invariant Tallied() == old(Tallied()) && platforms == old(platforms)
        invariant levelWidth == old(levelWidth) && ball == old(ball)
      {
        assert pairs[i..][1..] == pairs[i + 1..];
        if Supports(pairs[i], ball) {
          canJump := false;
        }
        i := i + 1;
      }
    }

    /** The beforeUpdate handler's jump: with w held and canJump set, the force (0, −0.1). */
    method BeforeUpdate(wPressed: bool) returns (force: Option<Point>)
      modifies this
      ensures force == if wPressed && old(canJump) then Some(Point(0.0, JUMP_FORCE)) else None
      ensures canJump == (old(canJump) && !wPressed)
      ensures Tallied() == old(Tallied()) && platforms == old(platforms)
      ensures levelWidth == old(levelWidth) && ball == old(ball)
    {
      force := None;
      if wPressed && canJump {
        force := Some(Point(0.0, JUMP_FORCE));
        canJump := false;
      }
    }
  }
}
