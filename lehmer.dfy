/** Arithmetic of the Park–Miller "minimal standard" Lehmer generator that
    `SeededRandom` runs (bingo-gen.js:2-16): the seed normalisation, one draw,
    the value a draw returns and the index `Math.floor(next() * n)` made of it. */
module Lehmer {

  /** 2^31 - 1, a prime. */
  const Modulus: int := 2147483647
  /** 7^5. */
  const Multiplier: int := 16807
  /** The largest state, and the denominator of the value a draw returns. */
  const MaxState: int := 2147483646

  /** The states the generator can be in once it is constructed. */
  predicate ValidState(s: int) {
    1 <= s <= MaxState
  }

  /** JavaScript's `a % 2147483647`: the remainder of the division truncated
      toward zero, which takes the sign of the dividend. */
  function TruncRem(a: int): (r: int)
    ensures -Modulus < r < Modulus
    ensures a >= 0 ==> r >= 0
    ensures a <= 0 ==> r <= 0
  {
    if a >= 0 then a % Modulus else -((-a) % Modulus)
  }

  /** The truncated remainder differs from the dividend by a multiple of the
      modulus, so with its sign and size it is the remainder JavaScript
      computes. */
  lemma TruncRemIsRemainder(a: int)
    ensures (a - TruncRem(a)) % Modulus == 0
  {
    if a < 0 {
      var q := (-a) / Modulus;
      assert -a == Modulus * q + (-a) % Modulus;
      assert a - TruncRem(a) == Modulus * (-q);
    }
  }

  /** The seeds the constructor maps into a valid state: all but those whose
      truncated remainder is -(2^31 - 2), which would leave the state at 0. */
  predicate ValidSeed(seed: int) {
    TruncRem(seed) != -MaxState
  }

  /** The state the constructor leaves (bingo-gen.js:3-6). */
  function Normalize(seed: int): (s: int)
    ensures 0 <= s <= MaxState
    ensures ValidState(s) <==> ValidSeed(seed)
  {
    var r := TruncRem(seed);
    if r <= 0 then r + MaxState else r
  }

  /** A non-negative seed always gives a valid state; a multiple of the
      modulus, 0 included, gives 2^31 - 2; a seed in (0, 2^31 - 1) is kept;
      a seed of at most 0 is its truncated remainder plus 2^31 - 2. */
  lemma NormalizeFacts(seed: int)
    ensures seed >= 0 ==> ValidState(Normalize(seed))
    ensures seed % Modulus == 0 ==> Normalize(seed) == MaxState
    ensures 0 < seed < Modulus ==> Normalize(seed) == seed
    ensures seed <= 0 ==> Normalize(seed) == TruncRem(seed) + MaxState
  {
    if seed % Modulus == 0 && seed < 0 {
      var q := seed / Modulus;
      assert -seed == Modulus * (-q);
      assert (-seed) % Modulus == 0;
    }
  }

  /** Multiplying by 7 cannot make a number divisible by the modulus, because
      the modulus is 1 more than a multiple of 7. */
  lemma {:induction false} SevenCancels(t: int)
    requires (7 * t) % Modulus == 0
    ensures t % Modulus == 0
  {
    var k := (7 * t) / Modulus;
    assert 7 * t == Modulus * k;
    // Modulus == 7 * 306783378 + 1
    assert Modulus * k == 7 * (306783378 * k) + k;
    var m := t - 306783378 * k;
    assert k == 7 * m;
    assert 7 * t == 7 * (Modulus * m);
    assert t == Modulus * m;
  }

  /** One draw (bingo-gen.js:9): a valid state stays valid, since 16807 = 7^5
      and the modulus is a prime that is not 7. */
  function Step(s: int): (t: int)
    ensures ValidState(s) ==> ValidState(t)
  {
    var t := TruncRem(s * Multiplier);
    if ValidState(s) then
      assert t == (7 * (7 * (7 * (7 * (7 * s))))) % Modulus;
      if t == 0 then
        SevenCancels(7 * (7 * (7 * (7 * s))));
        SevenCancels(7 * (7 * (7 * s)));
        SevenCancels(7 * (7 * s));
        SevenCancels(7 * s);
        SevenCancels(s);
        assert false;
        t
      else t
    else t
  }

  /** The value `next()` returns for the state it has just reached
      (bingo-gen.js:10): a fraction in [0, 1). */
  function Fraction(s: int): (x: real)
    ensures ValidState(s) ==> 0.0 <= x < 1.0
  {
    (s - 1) as real / MaxState as real
  }

  /** `Math.floor(next() * n)` computed exactly: the floor of the rational
      (s - 1) * n / (2^31 - 2). */
  function Index(s: int, n: int): (j: int)
  {
    ((s - 1) * n) / MaxState
  }

  /** For a valid state and a positive `n` the index lies in [0, n): the swap
      partner of bingo-gen.js:21 and the offset of `randint` (bingo-gen.js:15). */
  lemma IndexInRange(s: int, n: int)
    requires ValidState(s) && n >= 1
    ensures 0 <= Index(s, n) < n
  {
    var x := (s - 1) * n;
    assert 0 <= x by {
      assert 0 <= s - 1;
    }
    assert x <= (MaxState - 1) * n by {
      assert (MaxState - 1) * n - x == (MaxState - s) * n;
      assert 0 <= MaxState - s;
    }
    var q := x / MaxState;
    assert x == MaxState * q + x % MaxState;
  }

  /** The exact integer index is the floor of the real-valued product
      `next() * n`, for every `n`. */
  lemma IndexIsFloor(s: int, n: int, x: real)
    requires x == Fraction(s)
    ensures (x * n as real).Floor == Index(s, n)
  {
    var p := (s - 1) * n;
    var q, r := p / MaxState, p % MaxState;
    assert p == MaxState * q + r;
    assert x * n as real == p as real / MaxState as real;
    assert p as real / MaxState as real == q as real + r as real / MaxState as real;
  }

  /** The state after `k` draws. */
  function Iterate(s: int, k: nat): (t: int)
    ensures ValidState(s) ==> ValidState(t)
    decreases k
  {
    if k == 0 then s else Iterate(Step(s), k - 1)
  }

  /** Draws compose: `a` draws followed by `b` draws are `a + b` draws. */
  lemma {:induction false} IterateAdd(s: int, a: nat, b: nat)
    ensures Iterate(Iterate(s, a), b) == Iterate(s, a + b)
    decreases a
  {
    if a > 0 {
      IterateAdd(Step(s), a - 1, b);
    }
  }

  /** Seed 1 gives the first state 16807 and the first value 16806 / (2^31 - 2). */
  lemma SeedOneFirstDraw()
    ensures ValidSeed(1) && Normalize(1) == 1
    ensures Step(Normalize(1)) == 16807
    ensures Fraction(Step(Normalize(1))) == 16806.0 / 2147483646.0
  {
  }
}
