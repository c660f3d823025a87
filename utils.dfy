/**
  The seeded random stream (js/utils.js), written with the integer semantics of
  ECMAScript, 13th edition: Math.imul (section 21.3.2.19) with ToInt32 and
  ToUint32 (sections 7.1.6 and 7.1.7), the truncating remainder `%` (section
  6.1.6.1.6) and the bitwise AND (section 6.1.6.1.17).  game.js:45-55 repeats the
  same generator word for word; the game.js model uses this module.
*/
module Utils {

  const TWO_31: int := 0x8000_0000
  const TWO_32: int := 0x1_0000_0000
  /** 2^31 - 1: the divisor of the remainder and of the output (2147483647 in the source). */
  const MODULUS: int := 0x7FFF_FFFF
  const MULTIPLIER: int := 16807

  // ---------------------------------------------------------------------------
  // ECMAScript integer operations on integer-valued Numbers
  // ---------------------------------------------------------------------------

  /** ToUint32: the residue of x modulo 2^32. */
  function ToUint32(x: int): (r: int)
    ensures 0 <= r < TWO_32
    ensures (x - r) % TWO_32 == 0
  {
    x % TWO_32
  }

  /** ToInt32: the 32-bit two's-complement reading of x. */
  function ToInt32(x: int): (r: int)
    ensures -TWO_31 <= r < TWO_31
    ensures (x - r) % TWO_32 == 0
  {
    var bits := ToUint32(x);
    if bits >= TWO_31 then bits - TWO_32 else bits
  }

  /** Math.imul: the product of the two ToUint32 words modulo 2^32, read as signed. */
  function Imul(a: int, b: int): (r: int)
    ensures -TWO_31 <= r < TWO_31
    ensures (a * b - r) % TWO_32 == 0
  {
    var p := ToUint32(a) * ToUint32(b);
    ProductCongruent(a, b, ToUint32(a), ToUint32(b));
    CongruentTrans(a * b, p, ToInt32(p));
    ToInt32(p)
  }

  /** Factors congruent modulo 2^32 give congruent products. */
  lemma ProductCongruent(a: int, b: int, ua: int, ub: int)
    requires (a - ua) % TWO_32 == 0 && (b - ub) % TWO_32 == 0
    ensures (a * b - ua * ub) % TWO_32 == 0
  {
    var ka := (a - ua) / TWO_32;
    var kb := (b - ub) / TWO_32;
    assert a - ua == ka * TWO_32;
    assert b - ub == kb * TWO_32;
    calc {
      a * b - ua * ub;
      == ua * (b - ub) + (a - ua) * b;
      == ua * (kb * TWO_32) + (ka * TWO_32) * b;
      == (ua * kb + ka * b) * TWO_32;
    }
    MultipleMod(ua * kb + ka * b);
  }

  lemma MultipleMod(k: int)
    ensures (k * TWO_32) % TWO_32 == 0
  {
  }

  /** Congruence modulo 2^32 is transitive. */
  lemma CongruentTrans(x: int, y: int, z: int)
    requires (x - y) % TWO_32 == 0 && (y - z) % TWO_32 == 0
    ensures (x - z) % TWO_32 == 0
  {
    var k := (x - y) / TWO_32;
    var m := (y - z) / TWO_32;
    assert x - z == (k + m) * TWO_32;
    MultipleMod(k + m);
  }

  /** Number::remainder on integers: the result takes the sign of the dividend. */
  function TruncRem(n: int, d: int): (r: int)
    requires d > 0
    ensures n >= 0 ==> 0 <= r < d
    ensures n < 0 ==> -d < r <= 0
    ensures (n - r) % d == 0
  {
    if n >= 0 then
      ModUnique(n - n % d, d, n / d, 0);
      n % d
    else
      ModUnique(n + (-n) % d, d, -((-n) / d), 0);
      -((-n) % d)
  }

  /** Bitwise AND of two naturals, bit by bit from the least significant end. */
  function BitAnd(a: nat, b: nat): (r: nat)
    ensures r <= a && r <= b
  {
    if a == 0 || b == 0 then 0
    else 2 * BitAnd(a / 2, b / 2) + (if a % 2 == 1 && b % 2 == 1 then 1 else 0)
  }

  /**
    `x & 0x7fffffff`: both operands go through ToInt32, and the AND of their
    32-bit words is read back as signed; the mask's top bit is clear, so the
    word read as unsigned is already the result.
  */
  function Mask31(x: int): (r: nat)
    ensures r <= MODULUS
  {
    BitAnd(ToUint32(x), MODULUS)
  }

  function Pow2(k: nat): (p: nat)
    ensures p >= 1
  {
    if k == 0 then 1 else 2 * Pow2(k - 1)
  }

  lemma MulAtLeast(d: int, k: int)
    requires d > 0 && k >= 1
    ensures d * k >= d
  {
  }

  /** Euclidean division is determined by quotient and remainder. */
  lemma ModUnique(a: int, d: int, q: int, r: int)
    requires d > 0 && a == d * q + r && 0 <= r < d
    ensures a % d == r && a / d == q
  {
    var q', r' := a / d, a % d;
    assert a == d * q' + r';
    assert d * (q - q') == r' - r;
    if q - q' >= 1 {
      MulAtLeast(d, q - q');
    } else if q' - q >= 1 {
      MulAtLeast(d, q' - q);
    }
  }

  /** Halving a and taking the remainder modulo m, then putting the low bit back: the remainder modulo p = 2m. */
  lemma HalfMod(a: nat, m: nat, p: nat)
    requires m >= 1 && p == 2 * m
    ensures 2 * ((a / 2) % m) + a % 2 == a % p
  {
    var q := (a / 2) / m;
    var r := (a / 2) % m;
    assert a / 2 == m * q + r;
    assert a == 2 * (a / 2) + a % 2;
    assert a == p * q + (2 * r + a % 2);
    ModUnique(a, p, q, 2 * r + a % 2);
  }

  /** One bit of the AND with the all-ones mask p - 1, for p = 2m: if the mask of m - 1 keeps
      the remainder modulo m of a / 2, the mask p - 1 keeps the remainder modulo p of a. */
  lemma MaskStep(a: nat, m: nat, p: nat)
    requires a != 0 && m >= 1 && p == 2 * m
    requires BitAnd(a / 2, m - 1) == (a / 2) % m
    ensures BitAnd(a, p - 1) == a % p
  {
    ModUnique(p - 1, 2, m - 1, 1);
    assert BitAnd(a, p - 1) == 2 * BitAnd(a / 2, m - 1) + a % 2;
    HalfMod(a, m, p);
  }

  /** ANDing with 2^k - 1 keeps the k low bits: the remainder modulo 2^k. */
  lemma {:induction false} MaskLowBits(a: nat, k: nat)
    ensures BitAnd(a, Pow2(k) - 1) == a % Pow2(k)
  {
    if k == 0 {
      assert Pow2(k) == 1;
      ModUnique(a, 1, a, 0);
    } else if a == 0 {
      ModUnique(a, Pow2(k), 0, 0);
    } else {
      MaskLowBits(a / 2, k - 1);
      MaskStep(a, Pow2(k - 1), Pow2(k));
    }
  }

  lemma Pow2Of31()
    ensures Pow2(31) == TWO_31
  {
    assert Pow2(8) == 256;
    assert Pow2(16) == 65536;
    assert Pow2(24) == 0x100_0000;
  }

  /** The output numerator is the residue of x modulo 2^31. */
  lemma Mask31IsLow31(x: int)
    ensures Mask31(x) == x % TWO_31
  {
    var u := ToUint32(x);
    Pow2Of31();
    MaskLowBits(u, 31);
    assert Mask31(x) == u % TWO_31;
    var q := x / TWO_32;
    assert x == TWO_32 * q + u;
    assert u == TWO_31 * (u / TWO_31) + u % TWO_31;
    ModUnique(x, TWO_31, 2 * q + u / TWO_31, u % TWO_31);
  }

  // ---------------------------------------------------------------------------
  // The generator
  // ---------------------------------------------------------------------------

  /** One update of the captured state: `s = Math.imul(16807, s) % 2147483647`. */
  function NextState(s: int): (r: int)
    ensures -MODULUS < r < MODULUS
  {
    TruncRem(Imul(MULTIPLIER, s), MODULUS)
  }

  /** The value returned for a stored state: `(s & 0x7fffffff) / 2147483647`. */
  function Value(s: int): (r: real)
    ensures 0.0 <= r <= 1.0
  {
    Mask31(s) as real / MODULUS as real
  }

  /**
    The state after n calls on a stream created from `seed`.  The first call is
    split off into StateAfterFirst, so that one unfolding of either function
    stops short of the arithmetic of NextState.
  */
  function StateAfter(seed: int, n: nat): (s: int)
    ensures n > 0 ==> -MODULUS < s < MODULUS
    decreases n, 0
  {
    if n == 0 then seed else StateAfterFirst(seed, n - 1)
  }

  /** The state after one call and then m more. */
  function StateAfterFirst(seed: int, m: nat): (s: int)
    ensures -MODULUS < s < MODULUS
    decreases m, 1
  {
    StateAfter(NextState(seed), m)
  }

  /** The closure returned by createSeededRandom: its captured `s` is the field. */
  class SeededRandom {
    var s: int

    constructor (seed: int)
      ensures s == seed
    {
      s := seed;
    }

    /** One call of the closure: it updates the state once and returns its value. */
    method Next() returns (r: real)
      modifies this
      ensures s == NextState(old(s))
      ensures r == Value(s)
    {
      s := TruncRem(Imul(MULTIPLIER, s), MODULUS);
      r := Mask31(s) as real / MODULUS as real;
    }
  }

  /** The i-th value (counting from 0) returned by a stream created from `seed`. */
  function Draw(seed: int, i: nat): (r: real)
    ensures 0.0 <= r <= 1.0
    decreases i, 2
  {
    DrawOn(seed, i)
  }

  function DrawOn(seed: int, i: nat): (r: real)
    ensures 0.0 <= r <= 1.0
    decreases i, 1
  {
    DrawFirst(seed, i)
  }

  /** Draw with the first call split off: value 0 is that call's, value i + 1 is value i of the stream after it. */
  function DrawFirst(seed: int, i: nat): (r: real)
    ensures 0.0 <= r <= 1.0
    decreases i, 0
  {
    if i == 0 then Value(NextState(seed)) else Draw(NextState(seed), i - 1)
  }

  /** The values of a stream created from `seed`, by call index. */
  function Stream(seed: int): nat -> real
  {
    (i: nat) => Draw(seed, i)
  }

  /** Every value of a stream lies in [0, 1]. */
  ghost predicate InUnit(rs: nat -> real)
  {
    forall i :: 0.0 <= rs(i) <= 1.0
  }

  lemma StreamInUnit(seed: int)
    ensures InUnit(Stream(seed))
  {
    forall i: nat
      ensures 0.0 <= Stream(seed)(i) <= 1.0
    {
      assert Stream(seed)(i) == Draw(seed, i);
    }
  }

  /** Value number i is the value of the state after i + 1 calls. */
  lemma {:induction false} DrawIsValue(seed: int, i: nat)
    ensures Draw(seed, i) == Value(StateAfter(seed, i + 1))
    decreases i
  {
    assert Draw(seed, i) == DrawFirst(seed, i);
    assert StateAfter(seed, i + 1) == StateAfter(NextState(seed), i);
    if i > 0 {
      DrawIsValue(NextState(seed), i - 1);
    }
  }

  /** After c calls, one more call stores the (c + 1)-th state and returns value number c. */
  lemma NextDraw(seed: int, c: nat, s: int)
    requires s == StateAfter(seed, c)
    ensures NextState(s) == StateAfter(seed, c + 1)
    ensures Value(NextState(s)) == Stream(seed)(c)
  {
    StateAfterAdd(seed, c, 1);
    DrawIsValue(seed, c);
  }

  /** One call on a stream that has made c calls since it was created from `seed`. */
  method DrawNext(rand: SeededRandom, ghost seed: int, ghost c: nat) returns (r: real)
    requires rand.s == StateAfter(seed, c)
    modifies rand
    ensures rand.s == StateAfter(seed, c + 1)
    ensures r == Stream(seed)(c)
  {
    NextDraw(seed, c, rand.s);
    r := rand.Next();
  }

  /** randomBetween applied to a draw r: `Math.floor(r * (max - min + 1) + min)`. */
  function RandomBetween(r: real, min: int, max: int): (k: int)
    ensures 0.0 <= r < 1.0 && min <= max ==> min <= k <= max
    ensures r == 1.0 ==> k == max + 1
  {
    var span := (max - min + 1) as real;
    assert 0.0 <= r < 1.0 && min <= max ==> r * span < span;
    (r * span + min as real).Floor
  }

  // ---------------------------------------------------------------------------
  // Facts about the stream
  // ---------------------------------------------------------------------------

  /** The state stays signed: a negative product leaves a negative remainder. */
  lemma StateSign(s: int)
    ensures Imul(MULTIPLIER, s) < 0 ==> NextState(s) <= 0
    ensures Imul(MULTIPLIER, s) >= 0 ==> NextState(s) >= 0
  {
  }

  /** The numerator of a stored state: s itself when s >= 0, s + 2^31 when s < 0. */
  lemma Numerator(s: int)
    requires -MODULUS < s < MODULUS
    ensures s >= 0 ==> Mask31(s) == s
    ensures s < 0 ==> Mask31(s) == s + TWO_31
  {
    Mask31IsLow31(s);
  }

  /** A stored state yields exactly 1 if and only if it is -1. */
  lemma ValueOne(s: int)
    requires -MODULUS < s < MODULUS
    ensures Value(s) == 1.0 <==> s == -1
  {
    Numerator(s);
    if Value(s) == 1.0 {
      assert Mask31(s) as real == MODULUS as real;
    }
  }

  /** Seed 0 is a fixed point: every later state and every value is 0. */
  lemma {:induction false} ZeroIsFixed(n: nat)
    ensures StateAfter(0, n) == 0
    ensures Value(StateAfter(0, n)) == 0.0
  {
    assert NextState(0) == 0;
    assert Mask31(0) == 0;
    if n > 0 {
      ZeroIsFixed(n - 1);
    }
  }

  /** The stream sees the seed only through ToInt32: congruent seeds agree from the first call. */
  lemma SeedsCongruentMod32(a: int, b: int, n: nat)
    requires (a - b) % TWO_32 == 0
    requires n >= 1
    ensures StateAfter(a, n) == StateAfter(b, n)
  {
    assert ToUint32(a) == ToUint32(b);
    assert NextState(a) == NextState(b);
  }

  /** The fixed menu seed of js/main.js:7 behaves as its ToInt32 value -722726954. */
  lemma MenuSeedTruncated(n: nat)
    requires n >= 1
    ensures ToInt32(1751623929814) == -722726954
    ensures StateAfter(1751623929814, n) == StateAfter(-722726954, n)
  {
    SeedsCongruentMod32(1751623929814, -722726954, n);
  }

  /** Seed 1: the first three states, the third already off the exact Park–Miller value. */
  lemma SeedOneStates()
    ensures StateAfter(1, 1) == 16807
    ensures StateAfter(1, 2) == 282475249
    ensures StateAfter(1, 3) == 1622647863
    ensures ExactStateAfter(1, 3) == 1622650073
  {
    assert NextState(1) == 16807;
    assert NextState(16807) == 282475249;
    assert NextState(282475249) == 1622647863;
    assert ExactNextState(282475249) == 1622650073;
  }

  /** Calls compose: n calls then m calls are n + m calls. */
  lemma {:induction false} StateAfterAdd(seed: int, n: nat, m: nat)
    ensures StateAfter(StateAfter(seed, n), m) == StateAfter(seed, n + m)
    decreases n
  {
    if n > 0 {
      StateAfterAdd(NextState(seed), n - 1, m);
    }
  }

  // ---------------------------------------------------------------------------
  // The wrap-around, made visible
  // ---------------------------------------------------------------------------

  /** ToInt32(seed) = -2^31 (seed 2^31, say) stores -1 on the first call: the first draw is exactly 1. */
  lemma FirstDrawCanBeOne()
    ensures StateAfter(0x8000_0000, 1) == -1
    ensures Value(StateAfter(0x8000_0000, 1)) == 1.0
    ensures RandomBetween(Value(StateAfter(0x8000_0000, 1)), 1000, 5000) == 5001
  {
    assert Imul(MULTIPLIER, 0x8000_0000) == -0x8000_0000;
    assert NextState(0x8000_0000) == -1;
    ValueOne(-1);
  }

  /** A non-zero seed can fall into the zero fixed point after one call. */
  lemma NonZeroSeedCanStick(n: nat)
    ensures StateAfter(868985321, n + 1) == 0
    ensures Value(StateAfter(868985321, n + 1)) == 0.0
  {
    assert Imul(MULTIPLIER, 868985321) == MODULUS;
    assert NextState(868985321) == 0;
    ZeroIsFixed(n);
  }

  // ---------------------------------------------------------------------------
  // Exact Park–Miller, as the generator's constants intend
  // ---------------------------------------------------------------------------

  /** The minimal-standard update computed without wrap-around. */
  function ExactNextState(s: int): (r: int)
    ensures 0 <= r < MODULUS
  {
    (MULTIPLIER * s) % MODULUS
  }

  function ExactStateAfter(seed: int, n: nat): int
    decreases n
  {
    if n == 0 then seed else ExactStateAfter(ExactNextState(seed), n - 1)
  }

  /** Exact outputs s / (2^31 - 1) stay below 1, so randomBetween stays in [min, max]. */
  lemma ExactDrawInRange(s: int, min: int, max: int)
    requires min <= max
    ensures 0.0 <= ExactNextState(s) as real / MODULUS as real < 1.0
    ensures min <= RandomBetween(ExactNextState(s) as real / MODULUS as real, min, max) <= max
  {
  }

  /**
    Exact updates never reach 0 from a state that is not a multiple of the modulus:
    16807 * 1407677000 = 1 + 11017 * (2^31 - 1), so 16807 is invertible.
  */
  lemma ExactNeverZero(s: int)
    requires s % MODULUS != 0
    ensures ExactNextState(s) != 0
  {
    if ExactNextState(s) == 0 {
      var q := (MULTIPLIER * s) / MODULUS;
      assert MULTIPLIER * s == MODULUS * q;
      assert s == 1407677000 * (MULTIPLIER * s) - MODULUS * (11017 * s);
      assert s == MODULUS * (1407677000 * q - 11017 * s);
      ModUnique(s, MODULUS, 1407677000 * q - 11017 * s, 0);
      assert false;
    }
  }
}
