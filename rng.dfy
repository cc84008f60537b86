/** `SeededRandom` (bingo-gen.js:2-33): the generator object, whose `seed`
    field every draw updates, and the array it shuffles in place. */
module Rng {
  import opened Lehmer
  import opened Shuffling

  class SeededRandom {
    /** The generator state (named `seed` in the source). */
    var seed: int

    predicate Valid()
      reads this
    {
      ValidState(seed)
    }

    /** bingo-gen.js:3-6: the seed reduced by the truncated remainder and, when
        that is not positive, raised by 2^31 - 2. */
    constructor (seed0: int)
      requires ValidSeed(seed0)
      ensures Valid()
      ensures seed == Normalize(seed0)
    {
      var s := TruncRem(seed0);
      if s <= 0 {
        s := s + MaxState;
      }
      seed := s;
    }

    /** bingo-gen.js:8-11: advance the state once and return a value in [0, 1). */
    method Next() returns (x: real)
      requires Valid()
      modifies this
      ensures Valid()
      ensures seed == Step(old(seed))
      ensures x == Fraction(seed) && 0.0 <= x < 1.0
    {
      seed := TruncRem(seed * Multiplier);
      x := (seed - 1) as real / MaxState as real;
    }

    /** `Math.floor(this.next() * n)`, the expression that `randint`
        (bingo-gen.js:15) and `shuffle` (bingo-gen.js:21) share: one draw,
        scaled by `n` and rounded down. */
    method NextScaled(n: int) returns (j: int)
      requires Valid()
      modifies this
      ensures Valid()
      ensures seed == Step(old(seed))
      ensures j == Index(seed, n)
      ensures n >= 1 ==> 0 <= j < n
    {
      var x := Next();
      j := (x * n as real).Floor;
      IndexIsFloor(seed, n, x);
      if n >= 1 {
        IndexInRange(seed, n);
      }
    }

    /** bingo-gen.js:14-16: one draw scaled to [min, max]. */
    method RandInt(min: int, max: int) returns (r: int)
      requires Valid()
      modifies this
      ensures Valid()
      ensures seed == Step(old(seed))
      ensures r == Index(seed, max - min + 1) + min
      ensures min <= max ==> min <= r <= max
    {
      var j := NextScaled(max - min + 1);
      r := j + min;
    }

    /** bingo-gen.js:19-25: Fisher–Yates in place, from the last index down
        to 1, swapping each position with one drawn from [0, i]. */
    method Shuffle(a: array<int>)
      requires Valid()
      modifies this, a
      ensures Valid()
      ensures (seed, a[..]) == Shuffled(old(seed), old(a[..]))
      ensures multiset(a[..]) == multiset(old(a[..]))
      ensures seed == Iterate(old(seed), if a.Length > 0 then a.Length - 1 else 0)
    {
      ghost var s0, a0 := seed, a[..];
      var i := a.Length - 1;
      while i > 0
        invariant -1 <= i < a.Length
        invariant Valid()
        invariant ShuffleFrom(seed, a[..], i) == Shuffled(s0, a0)
        decreases i
      {
        ghost var s1, before := seed, a[..];
        var j := NextScaled(i + 1);
        assert ShuffleFrom(s1, before, i) == ShuffleFrom(seed, Swap(before, i, j), i - 1);
        a[i], a[j] := a[j], a[i];
        assert a[..] == Swap(before, i, j);
        i := i - 1;
      }
      ShuffledIsPermutation(s0, a0);
    }

    /** bingo-gen.js:28-32: the whole range [min, max] is built and shuffled,
        then its first `count` values are returned. */
    method SampleRange(min: int, max: int, count: int) returns (r: seq<int>)
      requires Valid()
      modifies this
      ensures Valid()
      ensures (seed, r) == Sample(old(seed), min, max, count)
      ensures seed == Iterate(old(seed), if max - min > 0 then max - min else 0)
      ensures Distinct(r) && forall x :: x in r ==> min <= x <= max
    {
      SampleFacts(seed, min, max, count);
      var length := if max - min + 1 > 0 then max - min + 1 else 0;
      var a := new int[length](k => k + min);
      assert a[..] == Range(min, max);
      Shuffle(a);
      r := SliceTo(a[..], count);
    }
  }
}
