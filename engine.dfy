/**
  The session controller of js/engine.js: the contact classifier, coin
  collection, the `canJump`, `score` and `runner.enabled` updates made by the
  engine's event handlers, and the session setup (counts and draw order) of
  startGameWithSeed.  The module-level variables the handlers write are the
  fields of a Session object; the physics engine that produces the pairs is
  not modelled.
*/
module Engine {

  import opened Wrappers
  import opened Utils
  import opened Geometry
  import opened Level

  // Constants of js/engine.js.
  const BASE_WIDTH: real := 1024.0
  const BASE_HEIGHT: real := 768.0
  const GROUND_HEIGHT: real := 150.0
  const VERTICAL_TOLERANCE: real := 5.0

  // ---------------------------------------------------------------------------
  // Contact classification
  // ---------------------------------------------------------------------------

  /** A collision pair as the engine reports it: bodyA, then bodyB. */
  datatype Pair = Pair(a: Body, b: Body)

  /**
    isBallOnGroundOrPlatform: the ball is bodyA when bodyA is labelled playerBall
    and bodyB otherwise; the pair supports the ball when the other member is a
    ground or platform body and the ball's lowest point is at most 5 below the
    surface's top.
  */
  predicate IsBallOnGroundOrPlatform(p: Pair)
  {
    var ball := if p.a.tag == PlayerBall then p.a else p.b;
    var surface := if p.a.tag == PlayerBall then p.b else p.a;
    (surface.tag == Ground || surface.tag == Platform)
    && ball.maxY <= surface.minY + VERTICAL_TOLERANCE
  }

  /** With the player as bodyA, the pair supports it exactly when bodyB is ground or a platform and within tolerance. */
  lemma SupportingIff(p: Pair)
    requires p.a.tag == PlayerBall
    ensures IsBallOnGroundOrPlatform(p) <==>
      (p.b.tag == Ground || p.b.tag == Platform) && p.a.maxY <= p.b.minY + VERTICAL_TOLERANCE
  {
  }

  /** A pair whose non-ball member is not ground or a platform, or whose ball sits more than 5 below the surface top, never supports. */
  lemma NotSupporting(p: Pair)
    ensures var surface := if p.a.tag == PlayerBall then p.b else p.a;
      !(surface.tag == Ground || surface.tag == Platform) ==> !IsBallOnGroundOrPlatform(p)
    ensures var ball := if p.a.tag == PlayerBall then p.a else p.b;
      var surface := if p.a.tag == PlayerBall then p.b else p.a;
      ball.maxY > surface.minY + VERTICAL_TOLERANCE ==> !IsBallOnGroundOrPlatform(p)
  {
  }

  /** When exactly one member is the player, the order of the pair does not matter. */
  lemma SupportingSymmetric(a: Body, b: Body)
    requires (a.tag == PlayerBall) != (b.tag == PlayerBall)
    ensures IsBallOnGroundOrPlatform(Pair(a, b)) == IsBallOnGroundOrPlatform(Pair(b, a))
  {
  }

  /**
    When neither member is the player, bodyB is taken as the ball, so the order
    does matter: a platform resting on the ground counts one way round only.
  */
  lemma SupportingOrderMatters()
    ensures var ground := Rectangle(0, Ground, 0.0, 10.0, 10.0, 10.0);
      var platform := Rectangle(1, Platform, 0.0, 0.0, 10.0, 10.0);
      IsBallOnGroundOrPlatform(Pair(ground, platform)) && !IsBallOnGroundOrPlatform(Pair(platform, ground))
  {
  }

  /** Whether some pair of a batch supports the ball, checked from the front. */
  predicate AnySupporting(pairs: seq<Pair>)
  {
    pairs != [] && (IsBallOnGroundOrPlatform(pairs[0]) || AnySupporting(pairs[1..]))
  }

  lemma {:induction false} AnySupportingIff(pairs: seq<Pair>)
    ensures AnySupporting(pairs) <==> exists i :: 0 <= i < |pairs| && IsBallOnGroundOrPlatform(pairs[i])
  {
    if pairs != [] {
      AnySupportingIff(pairs[1..]);
      if IsBallOnGroundOrPlatform(pairs[0]) {
        assert 0 <= 0 < |pairs| && IsBallOnGroundOrPlatform(pairs[0]);
      } else if exists i :: 0 <= i < |pairs| && IsBallOnGroundOrPlatform(pairs[i]) {
        var i :| 0 <= i < |pairs| && IsBallOnGroundOrPlatform(pairs[i]);
        assert pairs[1..][i - 1] == pairs[i];
      }
    }
  }

  /** The verdict on a batch does not depend on the order of its pairs. */
  lemma AnySupportingOrderFree(p: seq<Pair>, q: seq<Pair>)
    requires multiset(p) == multiset(q)
    ensures AnySupporting(p) == AnySupporting(q)
  {
    AnySupportingIff(p);
    AnySupportingIff(q);
    if AnySupporting(p) {
      var i :| 0 <= i < |p| && IsBallOnGroundOrPlatform(p[i]);
      assert p[i] in multiset(q);
      var j :| 0 <= j < |q| && q[j] == p[i];
    }
    if AnySupporting(q) {
      var j :| 0 <= j < |q| && IsBallOnGroundOrPlatform(q[j]);
      assert q[j] in multiset(p);
      var i :| 0 <= i < |p| && p[i] == q[j];
    }
  }

  /** A player–finish-line pair, in either order. */
  predicate FinishContact(p: Pair)
  {
    (p.a.tag == PlayerBall && p.b.tag == FinishLine) || (p.b.tag == PlayerBall && p.a.tag == FinishLine)
  }

  // ---------------------------------------------------------------------------
  // Coins and score
  // ---------------------------------------------------------------------------

  /** Array.prototype.indexOf: the first position holding x, or -1. */
  function IndexOf(s: seq<Body>, x: Body): (i: int)
    ensures -1 <= i < |s|
    ensures i == -1 <==> x !in s
    ensures 0 <= i ==> s[i] == x && x !in s[..i]
  {
    if s == [] then -1
    else if s[0] == x then 0
    else
      var j := IndexOf(s[1..], x);
      assert s[1..][..if j < 0 then 0 else j] == s[1..if j < 0 then 1 else j + 1];
      if j == -1 then -1 else j + 1
  }

  /** The part of the session collectCoin and the collisionStart handler change. */
  datatype Tally = Tally(score: int, coins: seq<Body>, runnerEnabled: bool)

  /** collectCoin on values: a coin still in the list is spliced out at its first position and scores 1. */
  function Collect(t: Tally, coin: Body): (u: Tally)
    ensures coin !in t.coins ==> u == t
    ensures coin in t.coins ==> u.score == t.score + 1 && |u.coins| == |t.coins| - 1
    ensures u.runnerEnabled == t.runnerEnabled
  {
    var index := IndexOf(t.coins, coin);
    if index != -1 then t.(score := t.score + 1, coins := t.coins[..index] + t.coins[index + 1..])
    else t
  }

  /** The coin removed is the first occurrence; the others keep their order, and nothing else is removed. */
  lemma CollectRemovesFirst(t: Tally, coin: Body, i: nat)
    requires i < |t.coins| && t.coins[i] == coin && coin !in t.coins[..i]
    ensures Collect(t, coin).coins == t.coins[..i] + t.coins[i + 1..]
    ensures multiset(Collect(t, coin).coins) == multiset(t.coins) - multiset{coin}
  {
    var j := IndexOf(t.coins, coin);
    assert j == i;
    assert t.coins == t.coins[..i] + [coin] + t.coins[i + 1..];
  }

  /** The score plus the coins still in the list does not change. */
  lemma CollectConserves(t: Tally, coin: Body)
    ensures Collect(t, coin).score + |Collect(t, coin).coins| == t.score + |t.coins|
    ensures Collect(t, coin).score >= t.score
  {
  }

  /** No two positions of a list hold the same body. */
  predicate Distinct(s: seq<Body>)
  {
    forall i, j :: 0 <= i < j < |s| ==> s[i] != s[j]
  }

  /** On a list without repeats, collecting a coin twice counts it once. */
  lemma CollectIdempotent(t: Tally, coin: Body)
    requires Distinct(t.coins)
    ensures Collect(Collect(t, coin), coin) == Collect(t, coin)
    ensures Distinct(Collect(t, coin).coins)
  {
    var s := t.coins;
    var i := IndexOf(s, coin);
    if i != -1 {
      var r := s[..i] + s[i + 1..];
      assert forall k :: 0 <= k < |r| ==> r[k] == if k < i then s[k] else s[k + 1];
      assert coin !in r;
    }
  }

  /** Bodies numbered consecutively are all different. */
  lemma NumberedDistinct(s: seq<Body>, id: BodyId, tag: Label)
    requires Numbered(s, id, tag)
    ensures Distinct(s)
  {
    forall i, j | 0 <= i < j < |s|
      ensures s[i] != s[j]
    {
      assert s[i].id != s[j].id;
    }
  }

  /** One pair of a collisionStart batch: a finish contact stops the runner, then a player–coin pair collects the coin member. */
  function StartPair(t: Tally, p: Pair): Tally
  {
    var t1 := if FinishContact(p) then t.(runnerEnabled := false) else t;
    var t2 := if p.a.tag == PlayerBall && p.b.tag == Coin then Collect(t1, p.b) else t1;
    if p.b.tag == PlayerBall && p.a.tag == Coin then Collect(t2, p.a) else t2
  }

  /** A collisionStart batch, pair by pair in the engine's order. */
  function AfterStart(t: Tally, pairs: seq<Pair>): Tally
    decreases |pairs|
  {
    if pairs == [] then t else AfterStart(StartPair(t, pairs[0]), pairs[1..])
  }

  /** After a batch the runner is enabled exactly when it was and no pair was a finish contact: nothing enables it again. */
  lemma {:induction false} StartStopsRunner(t: Tally, pairs: seq<Pair>)
    ensures AfterStart(t, pairs).runnerEnabled <==>
      t.runnerEnabled && forall i :: 0 <= i < |pairs| ==> !FinishContact(pairs[i])
    decreases |pairs|
  {
    if pairs != [] {
      StartStopsRunner(StartPair(t, pairs[0]), pairs[1..]);
      assert forall i :: 1 <= i < |pairs| ==> pairs[1..][i - 1] == pairs[i];
    }
  }

  /** One pair keeps the score plus the remaining coins, never lowers the score, and keeps the list free of repeats. */
  lemma StartPairConserves(t: Tally, p: Pair)
    requires Distinct(t.coins)
    ensures StartPair(t, p).score + |StartPair(t, p).coins| == t.score + |t.coins|
    ensures StartPair(t, p).score >= t.score
    ensures Distinct(StartPair(t, p).coins)
  {
    var t1 := if FinishContact(p) then t.(runnerEnabled := false) else t;
    var t2 := if p.a.tag == PlayerBall && p.b.tag == Coin then Collect(t1, p.b) else t1;
    CollectConserves(t1, p.b);
    CollectIdempotent(t1, p.b);
    CollectConserves(t2, p.a);
    CollectIdempotent(t2, p.a);
  }

  /** So does a whole batch. */
  lemma {:induction false} StartConserves(t: Tally, pairs: seq<Pair>)
    requires Distinct(t.coins)
    ensures AfterStart(t, pairs).score + |AfterStart(t, pairs).coins| == t.score + |t.coins|
    ensures AfterStart(t, pairs).score >= t.score
    ensures Distinct(AfterStart(t, pairs).coins)
    decreases |pairs|
  {
    if pairs != [] {
      StartPairConserves(t, pairs[0]);
      StartConserves(StartPair(t, pairs[0]), pairs[1..]);
    }
  }

  /** A player–coin pair, in either order, collects the coin member and does nothing else. */
  lemma StartPairCollects(t: Tally, ball: Body, coin: Body)
    requires ball.tag == PlayerBall && coin.tag == Coin
    ensures StartPair(t, Pair(ball, coin)) == Collect(t, coin)
    ensures StartPair(t, Pair(coin, ball)) == Collect(t, coin)
  {
  }

  /** Collecting has no guard on the won state: a coin is still scored after the runner has stopped. */
  lemma CollectAfterFinish(t: Tally, ball: Body, finish: Body, coin: Body)
    requires ball.tag == PlayerBall && finish.tag == FinishLine && coin.tag == Coin && coin in t.coins
    ensures var u := AfterStart(t, [Pair(ball, finish), Pair(ball, coin)]);
      !u.runnerEnabled && u.score == t.score + 1 && |u.coins| == |t.coins| - 1
  {
    var t1 := StartPair(t, Pair(ball, finish));
    assert t1 == t.(runnerEnabled := false);
    assert [Pair(ball, finish), Pair(ball, coin)][1..] == [Pair(ball, coin)];
    assert AfterStart(t1, [Pair(ball, coin)]) == StartPair(t1, Pair(ball, coin));
  }

  /** The score element's text `score (remaining)`, as its two numbers. */
  datatype Shown = Shown(score: int, remaining: int)

  /** What collectCoin writes into the score element: the score and the number of coins still listed. */
  function ScoreLine(t: Tally): Shown
  {
    Shown(t.score, |t.coins|)
  }

  /**
    Across a collisionStart batch the two numbers shown add up to the same total,
    and the count shown reaches 0 exactly when every coin has been collected.
  */
  lemma ScoreLineCounts(t: Tally, pairs: seq<Pair>)
    requires Distinct(t.coins)
    ensures ScoreLine(AfterStart(t, pairs)).score + ScoreLine(AfterStart(t, pairs)).remaining
         == ScoreLine(t).score + ScoreLine(t).remaining
    ensures ScoreLine(AfterStart(t, pairs)).remaining == 0 <==> AfterStart(t, pairs).coins == []
  {
    StartConserves(t, pairs);
  }

  // ---------------------------------------------------------------------------
  // The jump flag across events
  // ---------------------------------------------------------------------------

  /** The events that change canJump: a collisionActive batch, a collisionEnd batch, a beforeUpdate tick. */
  datatype Event = Active(pairs: seq<Pair>) | Ending(pairs: seq<Pair>) | Tick(wPressed: bool)

  /** The flag after one event: active batches only set it, ending batches only clear it, a tick with w held clears it. */
  function FlagAfter(canJump: bool, e: Event): bool
  {
    match e
    case Active(pairs) => canJump || AnySupporting(pairs)
    case Ending(pairs) => canJump && !AnySupporting(pairs)
    case Tick(w) => canJump && !w
  }

  function FlagAfterAll(canJump: bool, events: seq<Event>): bool
    decreases |events|
  {
    if events == [] then canJump else FlagAfterAll(FlagAfter(canJump, events[0]), events[1..])
  }

  /** An active batch with a supporting pair. */
  predicate Lands(e: Event)
  {
    e.Active? && AnySupporting(e.pairs)
  }

  /**
    The flag is true at the end only if it was true at the start or some active
    batch had a supporting pair; since a session starts with it false, the ball
    can jump only after landing.
  */
  lemma {:induction false} FlagNeedsLanding(canJump: bool, events: seq<Event>)
    ensures FlagAfterAll(canJump, events) ==> canJump || exists i :: 0 <= i < |events| && Lands(events[i])
    decreases |events|
  {
    if events != [] {
      FlagNeedsLanding(FlagAfter(canJump, events[0]), events[1..]);
      if FlagAfterAll(canJump, events) && !canJump && !Lands(events[0]) {
        var i :| 0 <= i < |events[1..]| && Lands(events[1..][i]);
        assert events[i + 1] == events[1..][i];
      }
    }
  }

  /** After a jump the flag stays false until an active batch has a supporting pair. */
  lemma {:induction false} JumpClearsUntilLanding(canJump: bool, events: seq<Event>)
    requires forall i :: 0 <= i < |events| ==> !Lands(events[i])
    ensures !FlagAfterAll(FlagAfter(canJump, Tick(true)), events)
  {
    if events != [] {
      var e := events[0];
      assert !Lands(e);
      assert forall i :: 0 <= i < |events[1..]| ==> events[1..][i] == events[i + 1];
      assert FlagAfter(false, e) == false;
      JumpClearsUntilLanding(false, events[1..]);
    }
  }

  /** A supporting active batch as the last event leaves the flag true, whatever came before. */
  lemma {:induction false} LandingEnablesJump(canJump: bool, events: seq<Event>, pairs: seq<Pair>)
    requires AnySupporting(pairs)
    ensures FlagAfterAll(canJump, events + [Active(pairs)])
    decreases |events|
  {
    if events == [] {
      assert [Active(pairs)][1..] == [];
    } else {
      assert (events + [Active(pairs)])[1..] == events[1..] + [Active(pairs)];
      LandingEnablesJump(FlagAfter(canJump, events[0]), events[1..], pairs);
    }
  }

  // ---------------------------------------------------------------------------
  // Session setup
  // ---------------------------------------------------------------------------

  /** The sizes at scale factor s: groundY = 768·s − 150·s. */
  function SessionDims(levelWidth: int, scale: real): Dims
  {
    Dims(scale, levelWidth, BASE_HEIGHT * scale - GROUND_HEIGHT * scale)
  }

  /** Math.floor(levelWidth / 200). */
  function PlatformCount(levelWidth: nat): nat
  {
    (levelWidth as real / 200.0).Floor
  }

  /** For the widths the first draw can give, 5 to 25 platforms. */
  lemma PlatformCountRange(levelWidth: nat)
    requires 1000 <= levelWidth <= 5001
    ensures 5 <= PlatformCount(levelWidth) <= 25
  {
    var q := levelWidth as real / 200.0;
    assert 5.0 <= q < 26.0;
  }

  /**
    What a session start builds, with the bodies numbered in the order they are
    added (tiles, finish, platforms, coins, then the ball, which is not part of
    the layout and keeps the one id skipped before the walls).
  */
  datatype Layout = Layout(levelWidth: int, tiles: seq<Body>, finish: Body, platforms: seq<Body>,
                           coins: seq<Body>, walls: seq<Body>)

  /** A layout and the number of draws made from the stream to build it. */
  datatype Setup = Setup(layout: Layout, cursor: nat)

  /**
    The bodies startGameWithSeed builds after the ground and the finish: the
    platforms start at draw 2, and the coins start where the platforms stopped,
    placed against the tiles, the finish and the platforms.  Bodies are numbered
    in the order they are added; the id after the coins is the ball's.
  */
  function Populate(rs: nat -> real, d: Dims, tiles: seq<Body>, finish: Body, count: nat, innerHeight: real): Setup
  {
    var walk := Platforms(rs, 2, count, |tiles| + 1, d);
    var run := Coins(rs, walk.cursor, 4 * count, tiles + [finish] + walk.platforms, [],
                     |tiles| + 1 + |walk.platforms|, d);
    var walls := Walls(d.levelWidth as real, innerHeight, d.groundY, |tiles| + 1 + |walk.platforms| + |run.coins| + 1);
    Setup(Layout(d.levelWidth, tiles, finish, walk.platforms, run.coins, walls), run.cursor)
  }

  /**
    The layout startGameWithSeed builds from a stream rs: the level width is
    draw 0, then come the ground tiles, the finish from draw 1, and the bodies of
    Populate with floor(width / 200) platforms and four times as many coins.
  */
  function SessionSetup(rs: nat -> real, scale: real, innerHeight: real): Setup
    requires scale > 0.0
  {
    var width := RandomBetween(rs(0), 1000, 5000);
    var d := SessionDims(width, scale);
    var tiles := GroundTiles(BASE_WIDTH * scale, d.groundY, GROUND_HEIGHT, width as real, 0);
    var finish := FinishBody(rs(1), |tiles|, d);
    Populate(rs, d, tiles, finish, if width < 0 then 0 else PlatformCount(width), innerHeight)
  }

  /** At most count platforms and 4·count coins, and the draws made: 2 before the walk, at most 2·count + 1 in it, at most 100 per coin. */
  lemma PopulateCounts(rs: nat -> real, d: Dims, tiles: seq<Body>, finish: Body, count: nat, innerHeight: real)
    ensures var u := Populate(rs, d, tiles, finish, count, innerHeight);
      && |u.layout.platforms| <= count
      && |u.layout.coins| <= 4 * count
      && 2 <= u.cursor <= 2 + 2 * count + 1 + 2 * MAX_ATTEMPTS * 4 * count
  {
    var walk := Platforms(rs, 2, count, |tiles| + 1, d);
    WalkShape(rs, 2, count, 0.0, d.MaxY(), |tiles| + 1, d);
    WalkCursor(rs, 2, count, 0.0, d.MaxY(), |tiles| + 1, d);
    var world := tiles + [finish] + walk.platforms;
    var id := |tiles| + 1 + |walk.platforms|;
    CoinsShape(rs, walk.cursor, 4 * count, world, [], id, d);
    CoinsDraws(rs, walk.cursor, 4 * count, world, [], id, d);
  }

  /** Every platform lies left of the finish, and the coins keep clear of the finish, the platforms and each other. */
  predicate LayoutClear(l: Layout, d: Dims)
  {
    && (forall k :: 0 <= k < |l.platforms| ==> l.platforms[k].x < l.finish.x)
    && l.finish.x == d.FinishX()
    && CoinsKeepClear(l.coins, l.finish, l.platforms, d)
  }

  /** The layout Populate builds around a finish at the finish x is clear. */
  lemma PopulateClear(rs: nat -> real, d: Dims, tiles: seq<Body>, finish: Body, count: nat, innerHeight: real)
    requires InUnit(rs) && d.levelWidth >= 50 && d.CoinYSpan() >= 0.0
    requires finish.tag == FinishLine && finish.x == d.FinishX()
    ensures LayoutClear(Populate(rs, d, tiles, finish, count, innerHeight).layout, d)
  {
    var walk := Platforms(rs, 2, count, |tiles| + 1, d);
    WalkShape(rs, 2, count, 0.0, d.MaxY(), |tiles| + 1, d);
    CoinsClearOfLevel(rs, walk.cursor, 4 * count, tiles, finish, walk.platforms, |tiles| + 1 + |walk.platforms|, d);
  }

  /** The coins carry consecutive ids, so collecting never meets a repeat. */
  lemma PopulateDistinct(rs: nat -> real, d: Dims, tiles: seq<Body>, finish: Body, count: nat, innerHeight: real)
    ensures Distinct(Populate(rs, d, tiles, finish, count, innerHeight).layout.coins)
  {
    var walk := Platforms(rs, 2, count, |tiles| + 1, d);
    var world := tiles + [finish] + walk.platforms;
    var id := |tiles| + 1 + |walk.platforms|;
    CoinsShape(rs, walk.cursor, 4 * count, world, [], id, d);
    NumberedDistinct(Coins(rs, walk.cursor, 4 * count, world, [], id, d).coins, id, Coin);
  }

  /**
    A session from any stream of values in [0, 1]: width 1000..5001, 5 to 25
    platforms walked at most, at most four coins per platform, the coins free of
    repeats, and (when the coin band is not empty) every coin clear of the
    finish and of every platform.
  */
  lemma SessionShape(rs: nat -> real, scale: real, innerHeight: real)
    requires InUnit(rs) && scale > 0.0
    ensures var l := SessionSetup(rs, scale, innerHeight).layout;
      && 1000 <= l.levelWidth <= 5001
      && 5 <= PlatformCount(l.levelWidth) <= 25
      && |l.platforms| <= PlatformCount(l.levelWidth)
      && |l.coins| <= 4 * PlatformCount(l.levelWidth)
      && Distinct(l.coins)
      && (SessionDims(1000, scale).CoinYSpan() >= 0.0 ==> LayoutClear(l, SessionDims(l.levelWidth, scale)))
  {
    var width := RandomBetween(rs(0), 1000, 5000);
    assert 1000 <= width <= 5001;
    var d := SessionDims(width, scale);
    var tiles := GroundTiles(BASE_WIDTH * scale, d.groundY, GROUND_HEIGHT, width as real, 0);
    PlatformCountRange(width);
    var count := PlatformCount(width);
    var finish := FinishBody(rs(1), |tiles|, d);
    assert SessionSetup(rs, scale, innerHeight) == Populate(rs, d, tiles, finish, count, innerHeight);
    PopulateCounts(rs, d, tiles, finish, count, innerHeight);
    PopulateDistinct(rs, d, tiles, finish, count, innerHeight);
    if SessionDims(1000, scale).CoinYSpan() >= 0.0 {
      assert d.CoinYSpan() == SessionDims(1000, scale).CoinYSpan();
      FinishGeometry(rs(1), |tiles|, d);
      PopulateClear(rs, d, tiles, finish, count, innerHeight);
    }
  }

  /**
    The part of startGameWithSeed after the ground, on the session's stream once
    the level width is drawn: the finish from draw 1, count platforms from draw 2,
    four coins per platform, and the walls.
  */
  method PopulateSeeded(rand: SeededRandom, d: Dims, tiles: seq<Body>, count: nat, innerHeight: real, ghost seed: int)
    returns (level: Layout, ghost cursor: nat)
    requires rand.s == StateAfter(seed, 1)
    modifies rand
    ensures Setup(level, cursor) == Populate(Stream(seed), d, tiles, FinishBody(Stream(seed)(1), |tiles|, d), count, innerHeight)
    ensures rand.s == StateAfter(seed, cursor)
  {
    var finish := GenerateFinishLineSeeded(rand, d, |tiles|, seed, 1);
    var ps := GeneratePlatformsSeeded(count, rand, d, |tiles| + 1, seed, 2);
    ghost var walk := Platforms(Stream(seed), 2, count, |tiles| + 1, d);
    var cs := GenerateCoinsSeeded(count * 4, rand, d, tiles + [finish] + ps, |tiles| + 1 + |ps|, seed, walk.cursor);
    ghost var run := Coins(Stream(seed), walk.cursor, 4 * count, tiles + [finish] + ps, [], |tiles| + 1 + |ps|, d);
    var walls := Walls(d.levelWidth as real, innerHeight, d.groundY, |tiles| + 1 + |ps| + |cs| + 1);
    level := Layout(d.levelWidth, tiles, finish, ps, cs, walls);
    cursor := run.cursor;
  }

  // ---------------------------------------------------------------------------
  // The session object
  // ---------------------------------------------------------------------------

  class Session {
    var score: int
    var coins: seq<Body>
    var platforms: seq<Body>
    var canJump: bool
    /** runner.enabled; false while there is no runner. */
    var runnerEnabled: bool
    var levelWidth: int
    var rand: SeededRandom?

    /** The module's initial values: score 0, canJump false, empty arrays, no runner yet. */
    constructor ()
      ensures score == 0 && coins == [] && platforms == [] && !canJump && !runnerEnabled
    {
      score := 0;
      coins := [];
      platforms := [];
      canJump := false;
      runnerEnabled := false;
      levelWidth := 0;
      rand := null;
    }

    function Tallied(): Tally
      reads this
    {
      Tally(score, coins, runnerEnabled)
    }

    /** The coins array never lists one coin twice, so each coin scores once. */
    ghost predicate Valid()
      reads this
    {
      Distinct(coins)
    }

    /**
      collectCoin: indexOf, then splice and score += 1 when the coin is still
      listed; `written` is the score line then written, None when nothing is.
    */
    method CollectCoin(coin: Body) returns (written: Option<Shown>)
      modifies this
      ensures Tallied() == Collect(old(Tallied()), coin)
      ensures written == if coin in old(coins) then Some(ScoreLine(Tallied())) else None
      ensures canJump == old(canJump) && platforms == old(platforms)
      ensures levelWidth == old(levelWidth) && rand == old(rand)
      ensures old(Valid()) ==> Valid()
    {
      if Valid() {
        CollectIdempotent(Tallied(), coin);
      }
      written := None;
      var index := IndexOf(coins, coin);
      if index != -1 {
        coins := coins[..index] + coins[index + 1..];
        score := score + 1;
        written := Some(ScoreLine(Tallied()));
      }
    }

    /** The collisionStart handler over one batch of pairs. */
    method CollisionStart(pairs: seq<Pair>)
      modifies this
      ensures Tallied() == AfterStart(old(Tallied()), pairs)
      ensures canJump == old(canJump) && platforms == old(platforms)
      ensures levelWidth == old(levelWidth) && rand == old(rand)
      ensures old(Valid()) ==> Valid()
    {
      if Valid() {
        StartConserves(Tallied(), pairs);
      }
      ghost var whole := AfterStart(Tallied(), pairs);
      var i := 0;
      while i < |pairs|
        invariant 0 <= i <= |pairs|
        invariant AfterStart(Tallied(), pairs[i..]) == whole
        invariant canJump == old(canJump) && platforms == old(platforms)
        invariant levelWidth == old(levelWidth) && rand == old(rand)
      {
        var pair := pairs[i];
        ghost var before := Tallied();
        assert pairs[i..][1..] == pairs[i + 1..];
        var bodyA, bodyB := pair.a, pair.b;
        if (bodyA.tag == PlayerBall && bodyB.tag == FinishLine) || (bodyB.tag == PlayerBall && bodyA.tag == FinishLine) {
          runnerEnabled := false;
        }
        if bodyA.tag == PlayerBall && bodyB.tag == Coin {
          var _ := CollectCoin(bodyB);
        }
        if bodyB.tag == PlayerBall && bodyA.tag == Coin {
          var _ := CollectCoin(bodyA);
        }
        assert Tallied() == StartPair(before, pair);
        i := i + 1;
      }
    }

    /** The collisionActive handler: any supporting pair sets canJump; nothing here clears it. */
    method CollisionActive(pairs: seq<Pair>)
      modifies this
      ensures canJump == FlagAfter(old(canJump), Active(pairs))
      ensures canJump == (old(canJump) || AnySupporting(pairs))
      ensures Tallied() == old(Tallied()) && platforms == old(platforms)
      ensures levelWidth == old(levelWidth) && rand == old(rand)
    {
      var i := 0;
      while i < |pairs|
        invariant 0 <= i <= |pairs|
        invariant (canJump || AnySupporting(pairs[i..])) == (old(canJump) || AnySupporting(pairs))
        invariant old(canJump) ==> canJump
        invariant Tallied() == old(Tallied()) && platforms == old(platforms)
        invariant levelWidth == old(levelWidth) && rand == old(rand)
      {
        assert pairs[i..][1..] == pairs[i + 1..];
        if IsBallOnGroundOrPlatform(pairs[i]) {
          canJump := true;
        }
        i := i + 1;
      }
    }

    /** The collisionEnd handler: any supporting pair clears canJump; nothing here sets it. */
    method CollisionEnd(pairs: seq<Pair>)
      modifies this
      ensures canJump == FlagAfter(old(canJump), Ending(pairs))
      ensures canJump == (old(canJump) && !AnySupporting(pairs))
      ensures Tallied() == old(Tallied()) && platforms == old(platforms)
      ensures levelWidth == old(levelWidth) && rand == old(rand)
    {
      var i := 0;
      while i < |pairs|
        invariant 0 <= i <= |pairs|
        invariant (canJump && !AnySupporting(pairs[i..])) == (old(canJump) && !AnySupporting(pairs))
        invariant canJump ==> old(canJump)
        invariant Tallied() == old(Tallied()) && platforms == old(platforms)
        invariant levelWidth == old(levelWidth) && rand == old(rand)
      {
        assert pairs[i..][1..] == pairs[i + 1..];
        if IsBallOnGroundOrPlatform(pairs[i]) {
          canJump := false;
        }
        i := i + 1;
      }
    }

    /**
      The beforeUpdate handler's jump: with w held and canJump set, the force
      (0, getJumpImpulse) and canJump cleared.
    */
    method BeforeUpdate(wPressed: bool, scale: real) returns (force: Option<Point>)
      modifies this
      ensures force.Some? <==> wPressed && old(canJump)
      ensures force.Some? ==> force.value == Point(0.0, JumpImpulse(scale, BASE_HEIGHT)) && force.value.y < 0.0
      ensures canJump == FlagAfter(old(canJump), Tick(wPressed))
      ensures Tallied() == old(Tallied()) && platforms == old(platforms)
      ensures levelWidth == old(levelWidth) && rand == old(rand)
    {
      force := None;
      if wPressed && canJump {
        var impulseY := JumpImpulse(scale, BASE_HEIGHT);
        force := Some(Point(0.0, impulseY));
        canJump := false;
      }
    }

    /**
      startGameWithSeed: a fresh stream and its level width, the bodies built in
      the order the session adds them, the flags reset, a new runner, and the
      level arrays replaced by the new platforms and coins, then the score line
      written.  The fields are set after the bodies are built; nothing in
      between reads them.
    */
    method StartGameWithSeed(seed: int, scale: real, innerHeight: real) returns (level: Layout, written: Shown, ghost cursor: nat)
      requires scale > 0.0
      modifies this
      ensures Setup(level, cursor) == SessionSetup(Stream(seed), scale, innerHeight)
      ensures written == ScoreLine(Tallied()) && written == Shown(0, |level.coins|)
      ensures score == 0 && !canJump && runnerEnabled
      ensures coins == level.coins && platforms == level.platforms && levelWidth == level.levelWidth
      ensures rand != null && fresh(rand) && rand.s == StateAfter(seed, cursor)
      ensures Valid()
    {
      var r, width := GenerateLevelFromSeed(seed);
      var d := SessionDims(width, scale);
      var tiles := GenerateGround(BASE_WIDTH * scale, d.groundY, GROUND_HEIGHT, width as real, 0);
      level, cursor := PopulateSeeded(r, d, tiles, PlatformCount(width), innerHeight, seed);
      PopulateDistinct(Stream(seed), d, tiles, FinishBody(Stream(seed)(1), |tiles|, d), PlatformCount(width), innerHeight);
      rand := r;
      levelWidth := width;
      canJump := false;
      score := 0;
      runnerEnabled := true;
      platforms := level.platforms;
      coins := level.coins;
      written := ScoreLine(Tallied());
    }
  }
}
