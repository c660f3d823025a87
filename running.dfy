/**
  The earliest variant running.js: a fixed level 2400 wide with the finish
  marker at a fixed place, eight platforms and a random number of coins drawn
  with Math.random.  Its globals and event handlers are those of game.js, so a
  running session is a Game.Session; only the start, the restart and the
  generators differ.  Math.random is an input: a stream `rs` of draws in
  [0, 1) together with the number of draws already taken.  Bodies are numbered
  in the order they join the world: walls 0 to 3, the finish 4, the ball 5,
  the platforms 6 to 13, the coins from 14.
*/
module Running {

  import opened Wrappers
  import opened Utils
  import opened Geometry
  import Level
  import Engine
  import Game

  const LEVEL_WIDTH: int := 2400
  const PLATFORM_COUNT: nat := 8

  /** Math.random: every draw lies in [0, 1). */
  ghost predicate RandomRange(rs: nat -> real)
  {
    forall i :: 0.0 <= rs(i) < 1.0
  }

  lemma RandomRangeInUnit(rs: nat -> real)
    requires RandomRange(rs)
    ensures InUnit(rs)
  {
  }

  // ---------------------------------------------------------------------------
  // Walls, finish and ball
  // ---------------------------------------------------------------------------

  /** generateWalls: the limits of a 2400-wide level, 600 tall, with the ground at 465. */
  function Walls(): seq<Body>
  {
    Level.Walls(LEVEL_WIDTH as real, Game.WALL_HEIGHT, Game.GROUND_Y, 0)
  }

  /** generateFinishLine: a 40 × 200 marker centred at (2300, 200). */
  function FinishBody(id: BodyId): Body
  {
    Rectangle(id, FinishLine, 2300.0, 200.0, 40.0, 200.0)
  }

  /**
    Of the walls, only the left limit can touch a coin's query box, and only
    when the coin is drawn at the least x, 25: there the box reaches x = 0,
    the right side of the left limit.  The right and upper limits are out of
    reach and the ground is never an obstacle.
  */
  lemma WallsRefuseOnlyLeftEdge(x: real, y: real, ball: Option<Body>)
    requires 25.0 <= x <= LEVEL_WIDTH as real - 25.0 && 50.0 <= y <= 415.0
    ensures (exists k :: 0 <= k < |Walls()| && Game.Obstacle(Walls()[k], ball) && Overlaps(Walls()[k], Game.QueryBox(x, y)))
        <==> x == 25.0 && Game.Obstacle(Walls()[0], ball)
  {
    var w := Walls();
    var box := Game.QueryBox(x, y);
    assert !Overlaps(w[1], box) && !Overlaps(w[2], box) && !Game.Obstacle(w[3], ball);
    if x == 25.0 && Game.Obstacle(w[0], ball) {
      assert Overlaps(w[0], box);
    }
  }

  // ---------------------------------------------------------------------------
  // Platforms (generatePlatforms)
  // ---------------------------------------------------------------------------

  /** The direction step of running.js: the move is checked against the band before it is taken. */
  function RunStepY(up: bool, lastY: real): real
  {
    if up then (if lastY - Game.DELTA >= Game.MIN_Y then lastY - Game.DELTA else lastY + Game.DELTA)
    else (if lastY + Game.DELTA <= Game.MAX_Y then lastY + Game.DELTA else lastY - Game.DELTA)
  }

  /**
    The walk of running.js from draw c, n platforms to go; each takes a gap draw
    and a direction draw.  The draw index is part of the termination measure so
    that a literal count, 8, does not unfold the whole walk at once.
  */
  function RunWalk(rs: nat -> real, c: nat, n: nat, lastX: real, lastY: real, id: BodyId): seq<Body>
    decreases n, c
  {
    if n == 0 then []
    else
      var x := lastX + Game.Spacing(rs(c));
      var y := RunStepY(rs(c + 1) > 0.5, lastY);
      [Game.PlatformBody(id, x, y)] + RunWalk(rs, c + 2, n - 1, x, y, id + 1)
  }

  /**
    Checking the move before taking it (running.js) and taking it and turning
    back at the edge (game.js) give the same walk.
  */
  lemma {:induction false} RunWalkIsWalk(rs: nat -> real, c: nat, n: nat, lastX: real, lastY: real, id: BodyId)
    ensures RunWalk(rs, c, n, lastX, lastY, id) == Game.Walk(rs, c, n, lastX, lastY, id)
    decreases n
  {
    if n > 0 {
      var x := lastX + Game.Spacing(rs(c));
      var up := rs(c + 1) > 0.5;
      assert RunStepY(up, lastY) == Level.StepY(up, lastY, Game.DELTA, Game.MIN_Y, Game.MAX_Y);
      RunWalkIsWalk(rs, c + 2, n - 1, x, RunStepY(up, lastY), id + 1);
    }
  }

  /** One iteration of generatePlatforms: the gap, then the checked direction, and the platform. */
  method NextPlatform(rs: nat -> real, c: nat, lastX: real, lastY: real, id: BodyId, ghost n: nat)
    returns (x: real, y: real, platform: Body)
    requires n > 0
    ensures RunWalk(rs, c, n, lastX, lastY, id) == [platform] + RunWalk(rs, c + 2, n - 1, x, y, id + 1)
  {
    var random := rs(c);
    var spacingX := Game.Spacing(random);
    x := lastX + spacingX;
    y := lastY;
    if rs(c + 1) > 0.5 {
      if lastY - Game.DELTA >= Game.MIN_Y {
        y := lastY - Game.DELTA;
      } else {
        y := lastY + Game.DELTA;
      }
    } else {
      if lastY + Game.DELTA <= Game.MAX_Y {
        y := lastY + Game.DELTA;
      } else {
        y := lastY - Game.DELTA;
      }
    }
    platform := Rectangle(id, Platform, x, y, 100.0, 40.0);
    assert platform == Game.PlatformBody(id, x, y);
  }

  /**
    generatePlatforms: count platforms from lastX = 0 and lastY = maxY, each
    added to the world and pushed onto the platforms array; the pushes are
    made after the loop, which reads neither.
  */
  method GeneratePlatforms(s: Game.Session, count: nat, world: seq<Body>, rs: nat -> real, c0: nat)
    returns (newWorld: seq<Body>, c: nat)
    modifies s
    ensures s.platforms == old(s.platforms) + RunWalk(rs, c0, count, 0.0, Game.MAX_Y, |world|)
    ensures newWorld == world + RunWalk(rs, c0, count, 0.0, Game.MAX_Y, |world|)
    ensures c == c0 + 2 * count
    ensures s.score == old(s.score) && s.canJump == old(s.canJump) && s.coins == old(s.coins)
    ensures s.levelWidth == old(s.levelWidth) && s.runnerEnabled == old(s.runnerEnabled) && s.ball == old(s.ball)
  {
    ghost var whole := RunWalk(rs, c0, count, 0.0, Game.MAX_Y, |world|);
    var added: seq<Body> := [];
    ghost var n := count;
    ghost var tail := whole;
    c := c0;
    var id: nat := |world|;
    var lastX, lastY := 0.0, Game.MAX_Y;
    var i := 0;
    while i < count
      invariant 0 <= i <= count && n == count - i && c == c0 + 2 * i
      invariant tail == RunWalk(rs, c, n, lastX, lastY, id)
      invariant whole == added + tail
      modifies {}
    {
      var platform;
      lastX, lastY, platform := NextPlatform(rs, c, lastX, lastY, id, n);
      ghost var next := RunWalk(rs, c + 2, n - 1, lastX, lastY, id + 1);
      Level.AppendAssoc(added, [platform], next);
      added := added + [platform];
      tail := next;
      c, n, id := c + 2, n - 1, id + 1;
      i := i + 1;
    }
    assert added + [] == added;
    s.platforms := s.platforms + added;
    newWorld := world + added;
  }

  // ---------------------------------------------------------------------------
  // Coins (generateCoins)
  // ---------------------------------------------------------------------------

  /**
    The iterations of `for (let i = 0; i < count; i++)` with a real count: the
    whole numbers below it, so ⌈count⌉ for a positive count and none otherwise.
  */
  function CoinIterations(count: real): nat
  {
    if count <= 0.0 then 0 else -((-count).Floor)
  }

  /** The loop runs iteration i exactly when i < count. */
  lemma CoinIterationsIff(count: real, i: nat)
    ensures i < CoinIterations(count) <==> (i as real) < count
  {
    if count > 0.0 {
      var f := (-count).Floor;
      assert f as real <= -count < f as real + 1.0;
    }
  }

  /** The count Math.random() · 100 gives at most 100 coins' worth of iterations. */
  lemma CoinIterationsBound(r: real)
    requires 0.0 <= r < 1.0
    ensures CoinIterations(r * 100.0) <= 100
  {
    var count := r * 100.0;
    if CoinIterations(count) > 100 {
      CoinIterationsIff(count, 100);
      assert false;
    }
  }

  /** The scene the coin test sees in running.js: the fixed width and the current ball. */
  function RunScene(ball: Option<Body>): Game.Scene
  {
    Game.Scene(LEVEL_WIDTH, ball)
  }

  /** One attempt: x = Math.random() · (levelWidth − 50) + 25, y = Math.random() · 365 + 50, then the query. */
  method TryCoin(bodies: seq<Body>, ball: Option<Body>, rs: nat -> real, c: nat) returns (spot: Option<Point>)
    ensures spot == Game.TryCoin(rs, c, bodies, RunScene(ball))
  {
    var x := Game.CoinX(rs(c), LEVEL_WIDTH);
    var y := Game.CoinY(rs(c + 1));
    var bodiesInRegion := Region(bodies, Game.QueryBox(x, y));
    var collides := Game.AnyObstacle(bodiesInRegion, ball);
    spot := if collides then None else Some(Point(x, y));
  }

  /** The coins an attempt loop pushes: the accepted coin, if any. */
  function Pushed(coin: Option<Body>): seq<Body>
  {
    if coin.Some? then [coin.value] else []
  }

  /** Up to 50 attempts for the next coin, against the world and the coins placed before it. */
  method PlaceCoin(world: seq<Body>, placed: seq<Body>, ball: Option<Body>, rs: nat -> real, c0: nat, ghost rest: nat)
    returns (coin: Option<Body>, c: nat)
    ensures Game.Tries(rs, c0, Level.MAX_ATTEMPTS, rest, world, placed, |world|, RunScene(ball))
         == Game.Coins(rs, c, rest, world, placed + Pushed(coin), |world|, RunScene(ball))
  {
    var sc := RunScene(ball);
    ghost var whole := Game.Tries(rs, c0, Level.MAX_ATTEMPTS, rest, world, placed, |world|, sc);
    c := c0;
    coin := None;
    assert placed + Pushed(coin) == placed;
    var attempt := 0;
    while attempt < Level.MAX_ATTEMPTS
      invariant 0 <= attempt <= Level.MAX_ATTEMPTS && coin == None
      invariant whole == Game.Tries(rs, c, Level.MAX_ATTEMPTS - attempt, rest, world, placed, |world|, sc)
    {
      assert whole == Game.Attempt(rs, c, Level.MAX_ATTEMPTS - attempt - 1, rest, world, placed, |world|, sc);
      var spot := TryCoin(world + placed, ball, rs, c);
      c := c + 2;
      if spot.Some? {
        var body := Circle(|world| + |placed|, Coin, spot.value.x, spot.value.y, Game.COIN_SIZE);
        assert body == Game.CoinBody(|world| + |placed|, spot.value);
        coin := Some(body);
        return;
      }
      attempt := attempt + 1;
    }
  }

  /**
    generateCoins(count): ⌈count⌉ coins tried, each against every body of the
    world and the coins placed before it; the accepted coins are pushed onto
    the coins array, after the loop, which does not read it.
  */
  method GenerateCoins(s: Game.Session, count: real, world: seq<Body>, rs: nat -> real, c0: nat)
    returns (added: seq<Body>, c: nat)
    modifies s
    ensures Level.CoinRun(added, c) == Game.Coins(rs, c0, CoinIterations(count), world, [], |world|, RunScene(s.ball))
    ensures s.coins == old(s.coins) + added
    ensures s.score == old(s.score) && s.canJump == old(s.canJump) && s.platforms == old(s.platforms)
    ensures s.levelWidth == old(s.levelWidth) && s.runnerEnabled == old(s.runnerEnabled) && s.ball == old(s.ball)
  {
    var ball := s.ball;
    ghost var whole := Game.Coins(rs, c0, CoinIterations(count), world, [], |world|, RunScene(ball));
    added := [];
    c := c0;
    var i: nat := 0;
    ghost var n := CoinIterations(count);
    while (i as real) < count
      invariant i + n == CoinIterations(count)
      invariant whole == Game.Coins(rs, c, n, world, added, |world|, RunScene(ball))
      modifies {}
      decreases n
    {
      CoinIterationsIff(count, i);
      var coin;
      coin, c := PlaceCoin(world, added, ball, rs, c, n - 1);
      added := added + Pushed(coin);
      i, n := i + 1, n - 1;
    }
    CoinIterationsIff(count, i);
    s.coins := s.coins + added;
  }

  // ---------------------------------------------------------------------------
  // The course startGame lays out
  // ---------------------------------------------------------------------------

  datatype Course = Course(walls: seq<Body>, finish: Body, ball: Body, platforms: seq<Body>, coins: seq<Body>)

  /** A course and the number of draws taken when it is complete. */
  datatype Laid = Laid(course: Course, cursor: nat)

  /** The first bodies of the world: the walls, the finish and the ball, numbered 0 to 5. */
  function Base(): seq<Body>
  {
    Walls() + [FinishBody(4)] + [Game.BallBody(5)]
  }

  /**
    The bodies startGame adds, in order, from draw c0: walls, finish, ball,
    eight platforms (two draws each), the coin count draw, then the coins
    against everything added before them; each body is numbered by the bodies
    before it.
  */
  function Lay(rs: nat -> real, c0: nat): Laid
  {
    var base := Base();
    var platforms := RunWalk(rs, c0, PLATFORM_COUNT, 0.0, Game.MAX_Y, |base|);
    var c := c0 + 2 * PLATFORM_COUNT;
    var full := base + platforms;
    var run := Game.Coins(rs, c + 1, CoinIterations(rs(c) * 100.0), full, [], |full|, RunScene(Some(Game.BallBody(5))));
    Laid(Course(Walls(), FinishBody(4), Game.BallBody(5), platforms, run.coins), run.cursor)
  }

  /** Every body of a course, in the order it joined the world. */
  function CourseBodies(k: Course): seq<Body>
  {
    k.walls + [k.finish] + [k.ball] + k.platforms + k.coins
  }

  /**
    Eight platforms numbered 6 to 13, chained from x = 0 with gaps of 200 to
    300, inside the band [100, 365], stepping by 40 from 365; the last lies
    from 1600 to below 2400, so its right side reaches up to 2450, through the
    right limit at 2405.
  */
  lemma LayPlatforms(rs: nat -> real, c0: nat)
    requires RandomRange(rs)
    ensures var p := Lay(rs, c0).course.platforms;
      && |p| == PLATFORM_COUNT
      && Level.Numbered(p, 6, Platform)
      && Game.Gaps(p, 0.0) && Game.Banded(p) && Level.Stepped(p, Game.MAX_Y, Game.DELTA)
      && 1600.0 <= p[PLATFORM_COUNT - 1].x < 2400.0
  {
    RandomRangeInUnit(rs);
    var id := |Base()|;
    assert id == 6;
    var p := RunWalk(rs, c0, PLATFORM_COUNT, 0.0, Game.MAX_Y, id);
    RunWalkIsWalk(rs, c0, PLATFORM_COUNT, 0.0, Game.MAX_Y, id);
    Game.WalkNumbered(rs, c0, PLATFORM_COUNT, 0.0, Game.MAX_Y, id);
    Game.WalkGaps(rs, c0, PLATFORM_COUNT, 0.0, Game.MAX_Y, id);
    Game.WalkBanded(rs, c0, PLATFORM_COUNT, 0.0, Game.MAX_Y, id);
    Game.WalkStepped(rs, c0, PLATFORM_COUNT, 0.0, Game.MAX_Y, id);
    WalkBelow(rs, c0, PLATFORM_COUNT, 0.0, Game.MAX_Y, id);
    Game.GapsReach(p, 0.0, PLATFORM_COUNT - 1);
  }

  /** With draws below 1 every gap is below 300, so the k-th platform lies below lastX + 300 · (k + 1). */
  lemma {:induction false} WalkBelow(rs: nat -> real, c: nat, n: nat, lastX: real, lastY: real, id: BodyId)
    requires RandomRange(rs)
    ensures forall k :: 0 <= k < |RunWalk(rs, c, n, lastX, lastY, id)| ==>
      RunWalk(rs, c, n, lastX, lastY, id)[k].x < lastX + 300.0 * (k + 1) as real
    decreases n
  {
    if n > 0 {
      var x := lastX + Game.Spacing(rs(c));
      var y := RunStepY(rs(c + 1) > 0.5, lastY);
      assert x < lastX + 300.0;
      WalkBelow(rs, c + 2, n - 1, x, y, id + 1);
      var p := RunWalk(rs, c, n, lastX, lastY, id);
      var q := RunWalk(rs, c + 2, n - 1, x, y, id + 1);
      forall k | 0 < k < |p|
        ensures p[k].x < lastX + 300.0 * (k + 1) as real
      {
        assert p[k] == q[k - 1];
      }
    }
  }

  /**
    At most 100 coins, numbered from 14, each in the drawing area and clear of
    the walls other than the ground, of the finish, the platforms and the coins
    before it; the ball does not count.
  */
  lemma LayCoins(rs: nat -> real, c0: nat)
    requires RandomRange(rs)
    ensures var k := Lay(rs, c0).course;
      && |k.coins| <= 100
      && Level.Numbered(k.coins, 14, Coin)
      && Game.CoinsClear(k.coins, Base() + k.platforms, RunScene(Some(k.ball)))
  {
    RandomRangeInUnit(rs);
    var base := Base();
    var platforms := RunWalk(rs, c0, PLATFORM_COUNT, 0.0, Game.MAX_Y, |base|);
    RunWalkIsWalk(rs, c0, PLATFORM_COUNT, 0.0, Game.MAX_Y, |base|);
    Game.WalkNumbered(rs, c0, PLATFORM_COUNT, 0.0, Game.MAX_Y, |base|);
    var full := base + platforms;
    assert |full| == 14;
    var c := c0 + 2 * PLATFORM_COUNT;
    var n := CoinIterations(rs(c) * 100.0);
    CoinIterationsBound(rs(c));
    var sc := RunScene(Some(Game.BallBody(5)));
    Game.CoinsShape(rs, c + 1, n, full, [], |full|, sc);
    Game.CoinsClearOfWorld(rs, c + 1, n, full, |full|, sc);
  }

  /** The world of a course begins with the walls, the finish and the ball. */
  lemma CourseBase(rs: nat -> real, c0: nat)
    ensures var k := Lay(rs, c0).course;
      CourseBodies(k) == Base() + k.platforms + k.coins && k.walls == Walls() && |Base()| == 6
  {
  }

  // ---------------------------------------------------------------------------
  // startGame and restartGame
  // ---------------------------------------------------------------------------

  /**
    startGame on the session's globals: walls, finish and the new ball, then
    generatePlatforms(8) and generateCoins(Math.random() · 100), and the score
    line.  The score and canJump are left as they were, a new runner is
    enabled, and the arrays grow by the new platforms and coins.
  */
  method StartGame(s: Game.Session, rs: nat -> real, c0: nat)
    returns (world: seq<Body>, written: Engine.Shown, ghost course: Course, c: nat)
    modifies s
    ensures Laid(course, c) == Lay(rs, c0)
    ensures world == CourseBodies(course)
    ensures s.platforms == old(s.platforms) + course.platforms && s.coins == old(s.coins) + course.coins
    ensures s.ball == Some(course.ball) && s.runnerEnabled
    ensures s.score == old(s.score) && s.canJump == old(s.canJump) && s.levelWidth == old(s.levelWidth)
    ensures written == Game.ScoreLineAsWritten(s.Tallied())
  {
    s.runnerEnabled := true;
    world := Furnish(s);
    ghost var base := world;
    world, c := GeneratePlatforms(s, PLATFORM_COUNT, world, rs, c0);
    ghost var platforms := RunWalk(rs, c0, PLATFORM_COUNT, 0.0, Game.MAX_Y, |base|);
    var count := rs(c) * 100.0;
    var added;
    added, c := GenerateCoins(s, count, world, rs, c + 1);
    world := world + added;
    course := Course(Walls(), FinishBody(4), Game.BallBody(5), platforms, added);
    written := Engine.Shown(s.score, |s.coins| + 1);
  }

  /** generateWalls, generateFinishLine and addPlayerBall on a new world: six bodies, the last the new ball. */
  method Furnish(s: Game.Session) returns (world: seq<Body>)
    modifies s
    ensures world == Base() && s.ball == Some(Game.BallBody(5))
    ensures s.score == old(s.score) && s.canJump == old(s.canJump) && s.coins == old(s.coins) && s.platforms == old(s.platforms)
    ensures s.levelWidth == old(s.levelWidth) && s.runnerEnabled == old(s.runnerEnabled)
  {
    world := Walls();
    var finish := FinishBody(|world|);
    world := world + [finish];
    var ball := Game.BallBody(|world|);
    s.ball := Some(ball);
    world := world + [ball];
  }

  /**
    restartGame: the arrays emptied and the score reset to 0 (the score line is
    written and then written again by startGame), then startGame.  canJump is
    not reset.
  */
  method RestartGame(s: Game.Session, rs: nat -> real, c0: nat)
    returns (world: seq<Body>, written: Engine.Shown, ghost course: Course, c: nat)
    modifies s
    ensures Laid(course, c) == Lay(rs, c0)
    ensures world == CourseBodies(course)
    ensures s.platforms == course.platforms && s.coins == course.coins
    ensures s.ball == Some(course.ball) && s.runnerEnabled
    ensures s.score == 0 && s.canJump == old(s.canJump) && s.levelWidth == old(s.levelWidth)
    ensures written == Game.ScoreLineAsWritten(s.Tallied())
  {
    s.coins := [];
    s.platforms := [];
    s.score := 0;
    var _ := Engine.Shown(s.score, |s.coins| + 1);
    world, written, course, c := StartGame(s, rs, c0);
  }
}
