# Super BitFederal: the seeded level generator and the session rules

Super BitFederal is a browser platformer on top of the Matter.js physics engine.
The player rolls a ball to the right across platforms, picks up coins and
touches a finish marker. This project models the game's deterministic logic
and proves properties of it:

- the seeded pseudo-random stream (js/utils.js);
- the level generator that consumes it (js/level.js);
- the session controller that reacts to the physics engine's collision
  batches (js/engine.js);
- the two earlier single-file versions of the game (game.js and running.js).
  Each is its own module and keeps its own rules.

The modules, in dependency order:

| module | file | what it holds |
|---|---|---|
| `Wrappers` | wrappers.dfy | `Option` |
| `Utils` | utils.dfy | JavaScript integer semantics (`Math.imul`, ToInt32, the truncating `%`, `& 0x7fffffff`), the generator as a class `SeededRandom` with a `Next` method, the stream it produces as a function `Stream(seed)`, and `randomBetween` |
| `Geometry` | geometry.dfy | bodies as records of id, label, centre and bounds; `Bodies.rectangle`, `Bodies.circle`; `Query.region` as a closed-interval bounding-box filter |
| `Level` | level.dfy | js/level.js: level width, the platform walk with its cut-off at the finish, coin placement by rejection sampling, the finish marker, walls, ground tiles, jump impulse |
| `Engine` | engine.dfy | js/engine.js: the contact classifier, coin collection, the `canJump`/`score`/`runner.enabled` handlers as methods of a `Session` class, and the session setup with its counts and draw order |
| `Game` | game.dfy | game.js: its own platform walk, finish, coin rule, identity-based grounding, off-by-one score line and `Session` class |
| `Running` | running.dfy | running.js: fixed 2400-wide level, eight platforms, a drawn number of coins, start and restart over `Math.random` |

The modelling follows one pattern throughout:

- Every generator that loops and pushes bodies is a `method` with a loop.
- Each such method is proved equal to a pure function of the draws it reads: `Level.PlatformWalk`, `Level.Coins`, `Game.Walk`, `Game.Coins`, `Running.RunWalk` and others.
- The properties the code promises are proved about those functions as lemmas: bounds, spacing, the y band, clearance of every coin, counts, and draw consumption.
- The mutable module state (`score`, `canJump`, `coins`, `platforms`, `runner.enabled`) is a class whose event methods state the whole new state.
- Seeded code keeps the generator object and says after each call how far the stream has advanced: `rand.s == StateAfter(seed, c)`.

## Model

| member | source | states |
|---|---|---|
| Utils.ToUint32 | js/utils.js:8 | the result is in [0, 2^32) and congruent to the input mod 2^32 |
| Utils.ToInt32 | js/utils.js:8 | the result is a signed 32-bit value congruent to the input mod 2^32 |
| Utils.Imul | js/utils.js:8 | `Math.imul` gives a signed 32-bit value congruent to the product of its arguments mod 2^32 |
| Utils.TruncRem | js/utils.js:8 | JavaScript's `%`: the remainder takes the sign of the dividend, lies strictly inside (−d, d), and differs from n by a multiple of d |
| Utils.BitAnd | js/utils.js:9 | the bitwise and of two naturals is no larger than either |
| Utils.Mask31 | js/utils.js:9 | `s & 0x7fffffff` never exceeds 2^31 − 1 |
| Utils.MaskLowBits | js/utils.js:9 | and-ing with 2^k − 1 keeps exactly the value mod 2^k |
| Utils.Mask31IsLow31 | js/utils.js:9 | `x & 0x7fffffff` equals x mod 2^31 for every integer x |
| Utils.NextState | js/utils.js:8 | the stored state after a step lies strictly between −(2^31 − 1) and 2^31 − 1 and is not masked |
| Utils.Value | js/utils.js:9 | every output lies in [0, 1] |
| Utils.StateAfter | js/utils.js:5-10 | after at least one step the state is inside (−(2^31 − 1), 2^31 − 1) |
| Utils.SeededRandom.constructor | js/utils.js:5-6 | the closure starts with `s` equal to the seed |
| Utils.SeededRandom.Next | js/utils.js:7-10 | each call advances the state by exactly one step and returns that state's value |
| Utils.Draw | js/utils.js:7-10 | the i-th draw of a stream lies in [0, 1] |
| Utils.StreamInUnit | js/utils.js:9 | every draw of every seeded stream lies in [0, 1] |
| Utils.DrawIsValue | js/utils.js:5-10 | draw i is the value of the state after i + 1 steps |
| Utils.NextDraw | js/utils.js:7-10 | stepping the state reached after c steps gives the state after c + 1 steps and the stream's draw c |
| Utils.DrawNext | js/utils.js:7-10 | a call on a generator c steps in returns draw c of its seed's stream and leaves it c + 1 steps in |
| Utils.RandomBetween | js/utils.js:1-3 | for r in [0, 1) and min ≤ max the result is in [min, max]; for r = 1 it is max + 1 |
| Utils.StateSign | js/utils.js:8 | the new state has the sign of the `imul` product, because `%` truncates |
| Utils.Numerator | js/utils.js:9 | for a stored state s, the numerator is s itself when s ≥ 0 and s + 2^31 when s < 0 |
| Utils.ValueOne | js/utils.js:9 | an output is exactly 1 if and only if the stored state is −1 |
| Utils.ZeroIsFixed | js/utils.js:6-9 | seed 0 keeps state 0 and output 0 forever |
| Utils.SeedsCongruentMod32 | js/utils.js:8 | seeds congruent mod 2^32 give the same states from the first step on |
| Utils.MenuSeedTruncated | js/main.js:7 | the fixed menu seed 1751623929814 behaves as its ToInt32 value −722726954 |
| Utils.SeedOneStates | js/utils.js:8 | seed 1 gives states 16807, 282475249, 1622647863; exact Park–Miller gives 1622650073 as the third |
| Utils.StateAfterAdd | js/utils.js:5-10 | n steps then m steps are n + m steps (the stream is deterministic in the seed) |
| Utils.FirstDrawCanBeOne | js/utils.js:8-9 | seed 2^31 gives state −1 at the first step, hence output 1.0 and a level width of 5001 |
| Utils.NonZeroSeedCanStick | js/utils.js:8 | the nonzero seed 868985321 reaches state 0 at once and outputs 0 forever |
| Utils.ExactNextState | js/utils.js:8 | the exact Park–Miller step stays in [0, 2^31 − 1) |
| Utils.ExactDrawInRange | js/utils.js:1-9 | under the exact step every draw is in [0, 1), so `randomBetween` stays in [min, max] |
| Utils.ExactNeverZero | js/utils.js:8 | under the exact step a state that is nonzero mod 2^31 − 1 never becomes 0 |
| Geometry.Region | js/level.js:66-75 | `Query.region` returns at most the bodies it was given |
| Geometry.RegionMember | js/level.js:66-75 | a body is in the region result if and only if it is in the world and its bounds overlap the box |
| Geometry.RegionAppend | js/level.js:66-75 | querying a world that grew by one body gives the old result plus that body exactly when it overlaps |
| Level.LevelWidth | js/level.js:3-7 | the width is in [1000, 5001], and it is 5001 exactly when the first state is −1 |
| Level.GenerateLevelFromSeed | js/level.js:3-7 | a fresh generator one step in, and the width `randomBetween(draw 0, 1000, 5000)` |
| Level.NextPlatformSeeded | js/level.js:21-48 | one loop iteration either stops the walk at the finish x or emits the next platform of the walk function |
| Level.GeneratePlatformsSeeded | js/level.js:9-49 | the platforms emitted are exactly those of the walk function, and the generator has advanced by the draws it used |
| Level.WalkShape | js/level.js:21-24 | at most `count` platforms, numbered consecutively and labelled platform, each left of `levelWidth − 100` |
| Level.WalkCursor | js/level.js:22-26 | the walk uses two draws per emitted platform and one more if it stopped at the finish |
| Level.SpacingBounds | js/level.js:13-14 | a gap lies in [200·scale, 300·scale] |
| Level.WalkSpacing | js/level.js:19-23 | each platform lies a gap in [200·scale, 300·scale] right of the one before, the first right of x = 0 |
| Level.WalkIncreasing | js/level.js:19-33 | with a positive scale the x values are strictly increasing from 0 |
| Level.WalkVertical | js/level.js:25-32 | through `Level.StepY`, each y is the previous one (the first: maxY) plus or minus 100·scale |
| Level.StepYInBand | js/level.js:25-32 | `Level.StepY` (up on a draw above 0.5, turning back at an edge): when the band is at least two steps tall, one step keeps y in [minY, maxY] |
| Level.WalkInBand | js/level.js:15-32 | under the same condition every platform y stays in [minY, maxY] |
| Level.FirstPlatformY | js/level.js:15-32 | under the same condition the first platform is always at maxY − delta |
| Level.AnyObstacleIff | js/level.js:76-78 | the `some` test is true exactly when a body not labelled background, ground or playerBall is in the region |
| Level.CollidesIff | js/level.js:66-78 | an attempt is accepted exactly when no such body overlaps the inflated coin box |
| Level.TryCoinSeeded | js/level.js:59-78 | one attempt, as the attempt function, with the generator advanced by its draws |
| Level.PlaceCoinSeeded | js/level.js:58-101 | the attempts loop for one coin equals the coin function's continuation |
| Level.GenerateCoinsSeeded | js/level.js:51-104 | the coins pushed are exactly those of the coin function, and the generator has advanced by its draws |
| Level.TryCoinDraws | js/level.js:59-61 | an attempt whose x reaches the finish x uses one draw and yields nothing; any other attempt uses two |
| Level.CoinSpotBounds | js/level.js:59-61 | a drawn spot has x ≥ 25 and 50 ≤ y ≤ groundY − coinSize − 30 |
| Level.TryCoinSound | js/level.js:59-80 | an accepted spot is in the drawing area, left of the finish x, and clear of every non-ignored body |
| Level.CoinsShape | js/level.js:57-100 | at most `count` coins, numbered consecutively and labelled coin |
| Level.TriesShape | js/level.js:57-100 | the attempts for one coin add at most that coin |
| Level.CoinsPlacedSnoc | js/level.js:98-99 | a coin on a clear spot keeps every placed coin clear of what came before it |
| Level.CoinsSound | js/level.js:57-101 | every placed coin sits on a spot clear of the world and of every coin placed before it |
| Level.TriesSound | js/level.js:57-101 | the same for the attempts of one coin |
| Level.CoinsDraws | js/level.js:57-61 | coin placement uses at most 2·50 draws per coin |
| Level.TriesDraws | js/level.js:57-61 | the attempts of one coin use at most two draws each |
| Level.CoinsApart | js/level.js:66-99 | an earlier coin never overlaps a later coin's inflated box |
| Level.CoinsClearOf | js/level.js:66-78 | no non-ignored body of the world overlaps any placed coin's inflated box, and 25 ≤ x < levelWidth − 100 |
| Level.CoinsClearOfLevel | js/level.js:51-104 | the coins keep clear of the finish, of every platform and of each other |
| Level.GenerateFinishLineSeeded | js/level.js:106-123 | the finish uses exactly one draw and is the finish function of that draw |
| Level.FinishGeometry | js/level.js:107-110 | the finish is labelled finishLine, at x = levelWidth − 100 and centre y = groundY / 2 whatever its height, 40·scale wide, 100·scale to 200·scale tall (at most 199·scale for r < 1) |
| Level.WallsEnclose | js/level.js:125-132 | four walls: the left one ends at x = 0, the right one starts at levelWidth + 5, the roof and the ground strip span [0, levelWidth] |
| Level.Ceil | js/level.js:164 | `Math.ceil`: the least integer not below r |
| Level.GenerateGround | js/level.js:160-182 | the loop gives those tiles: ids in order, labelled ground, tile i spanning [i·vw, (i + 1)·vw] below groundY, each abutting the one before |
| Level.GroundTilesAbut | js/level.js:163-167 | the tiles abut exactly, each spanning [i·vw, (i + 1)·vw] |
| Level.GroundCovers | js/level.js:164-166 | every x in [0, levelWidth] lies within one of the tiles |
| Level.JumpImpulse | js/level.js:184-187 | the impulse is negative (upwards) for any positive base height |
| Level.JumpImpulseAtBaseHeight | js/level.js:184-187 | at base height 768 the impulse is −0.1152 whatever the ball or the scale |
| Engine.SupportingIff | js/engine.js:172-180 | of `Engine.IsBallOnGroundOrPlatform`: with the ball first, a pair supports exactly when the other body is ground or platform and the ball's bottom is at most 5 below its top |
| Engine.NotSupporting | js/engine.js:175-179 | any other label, or a ball bottom more than 5 below the surface top, is never supporting |
| Engine.SupportingSymmetric | js/engine.js:173-174 | when exactly one member is the player, swapping the members does not change the answer |
| Engine.SupportingOrderMatters | js/engine.js:173-174 | when neither member is the player, the answer can depend on the order |
| Engine.AnySupportingIff | js/engine.js:129-135 | a batch supports exactly when one of its pairs does |
| Engine.AnySupportingOrderFree | js/engine.js:129-144 | the answer does not depend on the order of the pairs in the batch |
| Engine.IndexOf | js/engine.js:160 | `indexOf` is −1 exactly when the coin is absent, and otherwise gives its first position |
| Engine.Collect | js/engine.js:159-170 | an absent coin changes nothing; a present one adds 1 to score, removes one entry, and leaves the runner alone |
| Engine.CollectRemovesFirst | js/engine.js:160-163 | the splice removes exactly the first occurrence and keeps the rest in order |
| Engine.CollectConserves | js/engine.js:161-164 | `score + coins.length` is unchanged and score never drops |
| Engine.CollectIdempotent | js/engine.js:159-164 | on a list without repeats, collecting the same coin twice counts it once |
| Engine.NumberedDistinct | js/level.js:83-98 | consecutively numbered coins are distinct, so the coin list has no repeats |
| Engine.StartStopsRunner | js/engine.js:111-118 | after a collisionStart batch (`Engine.AfterStart`, pair by pair through `Engine.StartPair`) the runner is enabled exactly when it was and no pair was a finish contact in either order |
| Engine.StartPairConserves | js/engine.js:108-125 | one pair (`Engine.StartPair`) keeps `score + coins.length`, never lowers score, and keeps the list without repeats |
| Engine.StartConserves | js/engine.js:108-126 | the same over a whole batch (`Engine.AfterStart`) |
| Engine.StartPairCollects | js/engine.js:119-124 | a player–coin pair, in either order, collects exactly the coin member through collectCoin and changes nothing else |
| Engine.CollectAfterFinish | js/engine.js:108-125 | a coin touched after the finish in the same batch is still collected: nothing guards against it |
| Engine.ScoreLineCounts | js/engine.js:168 | the two numbers shown keep their sum, and the count shown is 0 exactly when no coin is left |
| Engine.FlagNeedsLanding | js/engine.js:128-144 | `canJump` ends true only if it started true or some collisionActive batch had a supporting pair |
| Engine.JumpClearsUntilLanding | js/engine.js:96-103 | after a jump the flag stays false until a supporting collisionActive batch |
| Engine.LandingEnablesJump | js/engine.js:129-135 | a supporting collisionActive batch leaves the flag true, whatever came before |
| Engine.PlatformCountRange | js/engine.js:70-71 | for widths in [1000, 5001], `floor(width / 200)` is between 5 and 25 |
| Engine.PopulateCounts | js/engine.js:70-74 | at most `count` platforms and 4·count coins, and the draws used stay within their bounds |
| Engine.PopulateClear | js/engine.js:67-80 | every platform lies left of the finish, and the coins keep clear of the finish, the platforms and each other |
| Engine.PopulateDistinct | js/engine.js:74 | the coins have no repeats |
| Engine.SessionShape | js/engine.js:35-80 | a seeded session has width in [1000, 5001], 5–25 as the platform count, the platform and coin counts within bounds, distinct coins, and a clear layout |
| Engine.PopulateSeeded | js/engine.js:67-80 | the seeded setup in the draw order finish, platforms, coins equals the layout function |
| Engine.Session.constructor | js/engine.js:6-7 | score 0, no coins or platforms, `canJump` false |
| Engine.Session.CollectCoin | js/engine.js:159-170 | the new tally is `Collect` of the old; the score line is written only when the coin was listed; a coins list without repeats stays so; nothing else changes |
| Engine.Session.CollisionStart | js/engine.js:107-126 | the new tally is the batch function of the old; a coins list without repeats stays so; the flag, platforms and width are unchanged |
| Engine.Session.CollisionActive | js/engine.js:128-135 | `canJump` becomes old `canJump` or "some pair supports"; nothing else changes |
| Engine.Session.CollisionEnd | js/engine.js:137-144 | `canJump` becomes old `canJump` and "no pair supports"; nothing else changes |
| Engine.Session.BeforeUpdate | js/engine.js:96-103 | the jump force is applied exactly when w is held and `canJump` was set, and it points up; the flag is then cleared |
| Engine.Session.StartGameWithSeed | js/engine.js:35-82 | the layout is the seeded setup function; score 0, `canJump` false, runner on, with the lists those of the layout, the coins list free of repeats, and the score line written as `0 (coins placed)` |
| Game.StepSeeded | game.js:88-101 | one iteration emits the head of the walk and leaves its tail, two draws later |
| Game.GeneratePlatformsSeeded | game.js:73-118 | the platforms are exactly the walk, and the generator advanced by 2·count draws |
| Game.WalkNumbered | game.js:87-117 | exactly `count` platforms (no cut-off), numbered and labelled platform |
| Game.SpacingBounds | game.js:88 | every gap is in [200, 300] |
| Game.WalkGaps | game.js:84-100 | each platform is 200 to 300 right of the one before, the first right of x = 0 |
| Game.WalkStepped | game.js:91-98 | each y is the previous plus or minus 40, starting from 365 |
| Game.WalkBanded | game.js:80-98 | every platform y stays in [100, 365] |
| Game.GapsReach | game.js:84-100 | the k-th platform (from 1) lies in [200·k, 300·k] |
| Game.HalfDrawsWalk | game.js:84-100 | with every draw 0.5, the fifth platform is at x = 1250, past a 1000-wide level's finish at 900 |
| Game.GenerateFinishLineSeeded | game.js:181-200 | the finish uses exactly two draws and is the finish function of them |
| Game.FinishPlacement | game.js:182-185 | the finish is at levelWidth − 100, 40 wide, of integer height 100–200 (at most 199 for r < 1), with an integer centre y in [100, groundY − height] |
| Game.AnyObstacleIff | game.js:150-152 | with `Game.Obstacle` (not ground, not `Game.IsBall`): an attempt sees an obstacle exactly when a region body is neither ground nor the ball object |
| Game.CollidesIff | game.js:139-152 | an attempt is accepted exactly when no such body overlaps the inflated box |
| Game.CollidesInLevelWorld | game.js:150-152 | in a world of platforms, finish and coins, any body in the region rejects the attempt |
| Game.TryCoinSeeded | game.js:131-152 | one attempt always uses two draws and equals the attempt function |
| Game.PlaceCoinSeeded | game.js:128-177 | the attempts loop for one coin equals the coin function's continuation |
| Game.GenerateCoinsSeeded | game.js:120-179 | the coins pushed and the draws used are those of the coin function |
| Game.TryCoinSound | game.js:131-154 | an accepted spot is in x ∈ [25, levelWidth − 25], y ∈ [50, 415], and clear of every obstacle |
| Game.TryCoinPastFinish | game.js:131 | there is no finish cut-off: a large draw places a coin right of the finish x |
| Game.CoinsPlacedSnoc | game.js:172-173 | a coin on a clear spot keeps every placed coin clear of what came before it |
| Game.CoinsShape | game.js:127-177 | at most `count` coins, numbered and labelled coin |
| Game.TriesShape | game.js:127-177 | the attempts for one coin add at most that coin |
| Game.CoinsSound | game.js:127-177 | every placed coin sits on a spot clear of the world and of earlier coins |
| Game.TriesSound | game.js:127-177 | the same for the attempts of one coin |
| Game.CoinsDraws | game.js:130-132 | coin placement uses between 2 and 2·50 draws per coin |
| Game.TriesDraws | game.js:130-132 | two draws per attempt |
| Game.CoinsClearOfWorld | game.js:127-177 | the coins are in the drawing area, clear of every obstacle of the world, and apart from each other |
| Game.GenerateCounted | game.js:57-65 | a generated level has width in [1000, 5001], `floor(width / 200)` ∈ [5, 25] platforms, and at most four coins per platform |
| Game.BuildCounted | game.js:59-65 | the same counts for any width in that range |
| Game.GenerateCoinsDistinct | game.js:61-65 | the coin list has no repeats |
| Game.GenerateChained | game.js:63 | the platforms keep the 200–300 gaps, the ±40 steps and the [100, 365] band |
| Game.GenerateFinish | game.js:64 | the finish is placed as FinishPlacement says for the drawn width |
| Game.GenerateCoinsClear | game.js:65 | the coins are clear of the platforms, the finish and each other |
| Game.GenerateLastPlatform | game.js:60-63 | the last platform lies right of `levelWidth − 200` and at most 300 per platform from 0 |
| Game.ScoreLineOffByOne | game.js:243 | the remaining count shown is one more than remain, so it is never 0, and it shows 1 when none remain |
| Game.SupportsSymmetric | game.js:247-252 | of `Game.Supports`, the ball being told apart by `Game.IsBall` (its id and the playerBall label): the answer is the same in either order, true only when one member carries the ball's id, and true for the ball at any position against ground or a platform |
| Game.SupportsWithoutTolerance | game.js:247-252 | for the session's ball after the engine has moved it, identity and label alone decide: touching a platform from below counts here and not in js/engine.js, resting on top counts in both |
| Game.MovedBallGrounds | game.js:338-345 | a collisionActive batch with the ball, wherever it has moved, against ground or a platform, in either order, supports, so the handler sets `canJump` |
| Game.AnySupportsIff | game.js:339-345 | a batch supports exactly when one of its pairs does |
| Game.GenerateLevelFromSeed | game.js:57-71 | the level equals the generation function in the order width, platforms, finish, coins |
| Game.BuildSeeded | game.js:60-65 | for a given width: the platforms are the 2·n-draw walk from draw 1, the finish is the next two draws, and the coins follow them |
| Game.Session.constructor | game.js:1-7 | score 0, `canJump` false, no coins or platforms, width 2400, no ball |
| Game.Session.StartGameWithSeed | game.js:254-296 | score and `canJump` reset, runner on, the level is the generation function, the ball and walls are added after it, and the off-by-one score line is written |
| Game.Session.CollectCoin | game.js:234-245 | the tally is `Collect` of the old; the off-by-one line is written only when the coin was listed |
| Game.Session.CollisionStart | game.js:319-336 | the tally is the batch function of the old; nothing else changes |
| Game.Session.CollisionActive | game.js:338-345 | `canJump` becomes old `canJump` or "some pair has the ball, by id and label, against ground or a platform" |
| Game.Session.CollisionEnd | game.js:347-354 | `canJump` becomes old `canJump` and "no pair has the ball, by id and label, against ground or a platform" |
| Game.Session.BeforeUpdate | game.js:310-316 | the jump force (0, −0.1) is applied exactly when w is held and `canJump` was set, which it then clears |
| Running.WallsRefuseOnlyLeftEdge | running.js:142-149 | inside the coin area the walls reject exactly the spots at x = 25, which touch the left wall |
| Running.RunWalkIsWalk | running.js:199-220 | the pre-checked y step gives the same platforms as game.js's walk, for the same draws |
| Running.NextPlatform | running.js:198-239 | one iteration emits the head of the walk and leaves its tail, two draws later |
| Running.GeneratePlatforms | running.js:189-240 | the platforms pushed and added to the world are exactly the walk, with 2·count draws used; nothing else changes |
| Running.CoinIterationsIff | running.js:248 | `for (i = 0; i < n; i++)` with real n runs exactly the iterations i < n, that is ⌈n⌉ of them |
| Running.CoinIterationsBound | running.js:63 | for n = `Math.random()·100` that is at most 100 iterations |
| Running.TryCoin | running.js:250-270 | one attempt equals game.js's attempt function on a 2400-wide level |
| Running.PlaceCoin | running.js:249-294 | the attempts loop for one coin equals the coin function's continuation |
| Running.GenerateCoins | running.js:242-296 | the coins pushed are game.js's coin function run for ⌈n⌉ coins, with the draws it uses |
| Running.LayPlatforms | running.js:189-240 | exactly eight platforms, ids 6 to 13, gaps 200–300, ±40 steps in [100, 365], the last one in [1600, 2400) |
| Running.WalkBelow | running.js:199-201 | with draws below 1, the k-th platform (from 1) is strictly left of 300·k |
| Running.LayCoins | running.js:242-296 | at most 100 coins with ids from 14, clear of the walls, the finish, the platforms and each other (the ground strip and the ball are exempt, as in game.js) |
| Running.CourseBase | running.js:59-63 | the world is walls, finish, ball, platforms, coins, in that order |
| Running.StartGame | running.js:36-64 | the bodies, the lists and the draw count equal the course function; the runner is on; score and `canJump` are kept; the off-by-one line is written |
| Running.Furnish | running.js:59-61 | walls, finish and ball in that order, ids 0 to 5 |
| Running.RestartGame | running.js:20-34 | score reset to 0 and lists emptied before the new course; `canJump` is kept as it was |

running.js's event handlers and `collectCoin` (running.js:70-119, 136-139,
298-305) are game.js's, except for the sounds. A running.js
session is therefore a `Game.Session`: the rows for `Game.Session.CollectCoin`,
`Game.Session.CollisionStart`, `Game.Session.CollisionActive`,
`Game.Session.CollisionEnd`, `Game.Session.BeforeUpdate` and
`Game.SupportsSymmetric` hold for it too.

## How the stream is modelled

- js/utils.js and game.js: `createSeededRandom` is `Utils.SeededRandom`.
  - Its field `s` is the closure's captured state, stored signed and not masked, as the code stores it.
  - `Math.imul` and ToInt32 follow section 21.3.2.19 and section 7.1.6 of ECMA-262, 13th edition. The truncating `%` follows section 6.1.6.1.6.
  - An output is the exact rational `(s & 0x7fffffff) / (2^31 − 1)`. No IEEE rounding is modelled.
  - `Stream(seed)(i)` is the i-th output of a fresh generator.
- running.js: `Math.random` is an input, a function `rs` from draw index to value in [0, 1), together with the index of the next draw.
- Real coordinates are mathematical reals. `Math.floor` is `.Floor`.

## Behaviour of the code the model keeps

- The generator is not exact Park–Miller. It multiplies with `Math.imul`, which wraps to 32 bits. From seed 1 the third state is 1622647863; exact Park–Miller (16807·s mod 2^31 − 1) gives 1622650073 (`Utils.SeedOneStates`).
- Being grounded is a flag, not a current contact. collisionActive sets `canJump`; collisionEnd and a jump clear it (`Engine.FlagNeedsLanding`).
- Reaching the finish does not freeze the game. It only sets `runner.enabled = false`, and `collectCoin` has no guard, so a coin touched afterwards still scores (`Engine.CollectAfterFinish`).
- The draw order differs between the files. js/engine.js draws width, finish, platforms, coins (`Engine.PopulateSeeded`). game.js draws width, platforms, finish, coins (`Game.GenerateLevelFromSeed`). Each module follows its own file.
- game.js tells the ball apart by object identity (`===`). The model gives every body of a world its own id, and the engine never changes a body's id or label, so `Game.IsBall` compares those two and ignores the position the engine has moved the ball to.
- game.js places the coins inside `generateLevelFromSeed`, before `addPlayerBall` runs. The ball its acceptance test excludes is therefore the previous session's ball object: `Game.Session.StartGameWithSeed` passes `old(ball)`.
- running.js's restartGame resets score and the lists but not `canJump` (`Running.RestartGame`).

## Verifying

All seven files form one program and are verified together, in any order:

    dafny verify --resource-limit 2000000 --verification-time-limit 0 --warn-contradictory-assumptions wrappers.dfy utils.dfy geometry.dfy level.dfy engine.dfy game.dfy running.dfy

## Left out

- The Matter.js engine: stepping, contact resolution, Runner and Render, World.add/remove and event registration. The collision batches are inputs to the session methods. Query.region is the bounding-box filter of `Geometry.Region`.
- IEEE-754 rounding: coordinates and draws are exact reals and rationals.
- Geometry.Circle: a circle's bounds are its centre ± radius. Matter builds a circle as a regular polygon with an even number of sides, between 10 and 26. Its vertices start half a step off the axes, so its bounds can be slightly smaller: about ±19.75 for a coin of radius 20. Coin placement (js/level.js:66-78, game.js:139-152, running.js:257-270) tests earlier coins by those polygon bounds. A spot whose inflated box ends between 19.75 and 20 from an earlier coin's centre is therefore accepted by the game and rejected by the model. The coin functions and the loops proved equal to them (`Level.GenerateCoinsSeeded`, `Game.GenerateCoinsSeeded`, `Running.GenerateCoins`) differ from the game in that band only. `Level.CoinsApart`, `Level.CoinsClearOfLevel`, `Game.CoinsClearOfWorld` and `Running.LayCoins` state coin-to-coin clearance for these exact circle bounds, up to 0.25 more than the polygons give. Clearance from rectangles is not affected. In game.js and running.js the ball has radius 25, a 26-gon with a vertex straight below its centre, so its bottom bound is exact. In js/engine.js the radius is 25·scale, and for some scales the polygon's bottom sits up to 1.3% of the radius higher. `Engine.IsBallOnGroundOrPlatform` reads the circle's bottom, so at those scales its 5-unit tolerance is off by that amount.
- Camera follow (game.js:356-368, js/engine.js:146-156, running.js:121-133): rendering only.
- Audio, DOM text and style writes, `setTimeout` dispatch of `gameEnded` (js/engine.js:114-117), keyboard listeners. Key states are method parameters. The score line is returned as the pair of numbers it would show.
- `updateViewportSize` (js/engine.js:10-24) reads the DOM. The scale factor is a parameter, and groundY = 768·scale − 150·scale.
- `generateBackground` (js/level.js:134-158): decoration sensors that coin placement ignores by label. Leaving them out shifts the ids of the js/engine.js bodies but no property.
- js/main.js (menus, mouse picking) and js/player.js (`addPlayerBall` is a constructor call; `handleJump` is never called): these are not part of this model. The one exception is the menu seed, which `Utils.MenuSeedTruncated` states.
- Body ids: the model numbers bodies in the order they join the world; Matter's own id counter is not modelled. In js/engine.js the ball joins between the coins and the walls; the layout does not hold it, and its id is the one skipped before the walls.
- Horizontal steering (the a and d pushes and the velocity limit of js/engine.js:86-95 and game.js:300-308) is physics input, not session state, and is not modelled; the beforeUpdate methods model only the jump.
- Running.GeneratePlatforms, Running.GenerateCoins: the loop collects the bodies locally and pushes them to the session lists after the loop. The source pushes each body as it is made. Nothing reads the lists between the pushes, so the final state is the same.
- Running.StartGame: `Math.random` is an input stream, so statements about the whole course (`Running.LayPlatforms`, `Running.LayCoins`) assume only that every draw is in [0, 1).
- Level.GeneratePlatformsSeeded, Game.GeneratePlatformsSeeded: the source empties a caller-supplied array first; the model returns the new platforms as a fresh sequence, which the session then stores.

## Findings

| source | as written | input that shows it | evidently intended | confidence | as-written member | corrected member |
|---|---|---|---|---|---|---|
| js/utils.js:8-9 | the `imul` step can give state −1, whose masked numerator is 2^31 − 1, so a draw can be exactly 1.0 and `randomBetween(rand, 1000, 5000)` then gives 5001 | seed 2^31 (first state −1, level width 5001) | draws in [0, 1), as exact Park–Miller gives, and a width in [1000, 5000] | not executed | Utils.FirstDrawCanBeOne | Utils.ExactDrawInRange |
| js/utils.js:8 | the wrapped product can be a multiple of 2^31 − 1, so a nonzero seed can fall into the fixed point 0 | seed 868985321 (state 0 after one step, every draw 0) | a nonzero seed never reaches state 0, as for Park–Miller | not executed | Utils.NonZeroSeedCanStick | Utils.ExactNeverZero |
| game.js:243 | the score line shows `coins.length + 1` remaining (also game.js:295, running.js:31, 64, 304) | any session after its last coin is collected: shows 1 remaining | the number of coins still listed, as js/engine.js:168 writes | not executed | Game.ScoreLineOffByOne | Engine.ScoreLineCounts |

The level and session modules keep the as-written generator, because that is
the stream the game consumes. Their lemmas assume only that draws lie in
[0, 1], which `Utils.StreamInUnit` proves of the written generator. They
therefore also hold for the exact step of `Utils.ExactNextState`.
