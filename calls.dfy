/** `CallList` (bingo-gen.js:203-242): the order in which the numbers 1..75
    are called, one full shuffle on a fresh generator, and the B-I-N-G-O
    letter each called number is announced with. */
module Calls {
  import opened Lehmer
  import opened Shuffling
  import opened Rng
  import opened Layout

  /** The call order for a generator state: 1..75 shuffled once. */
  function CallOrder(s: int): (order: seq<int>)
    requires ValidState(s)
  {
    Shuffled(s, Range(1, 75)).1
  }

  /** Each of the numbers 1..75 exactly once. */
  ghost predicate IsCallOrder(order: seq<int>) {
    |order| == 75 && Distinct(order) && forall v :: v in order <==> 1 <= v <= 75
  }

  /** The call order is a permutation of 1..75 and the shuffle costs
      exactly 74 draws. */
  lemma CallOrderIsPermutation(s: int)
    requires ValidState(s)
    ensures multiset(CallOrder(s)) == multiset(Range(1, 75))
    ensures IsCallOrder(CallOrder(s))
    ensures Shuffled(s, Range(1, 75)).0 == Iterate(s, 74)
  {
    ShuffledIsPermutation(s, Range(1, 75));
    assert Distinct(Range(1, 75));
  }

  /** The letter prefix of a called number (bingo-gen.js:230-234): the letter
      of the card column whose range holds it; below 1 it is B, above 75 O. */
  function Letter(n: int): (letter: char)
    ensures forall c :: 0 <= c < 5 && ColumnLow(c) <= n <= ColumnHigh(c) ==> letter == ColumnNames[c]
    ensures n < ColumnLow(0) ==> letter == 'B'
    ensures n > ColumnHigh(4) ==> letter == 'O'
  {
    if n < 16 then 'B'
    else if n < 31 then 'I'
    else if n < 46 then 'N'
    else if n < 61 then 'G'
    else 'O'
  }

  class CallList {
    /** The seed the list was made from (`this.seed`). */
    var seed: int
    var rng: SeededRandom
    var numbersCalled: int
    /** The call order (`this.data`). */
    var data: array<int>

    /** bingo-gen.js:204-217 on the seeded path: a generator for `seed0`,
        the numbers 1..75 in order, shuffled in place. */
    constructor (seed0: int, numbersCalled0: int)
      requires ValidSeed(seed0)
      ensures seed == seed0 && numbersCalled == numbersCalled0
      ensures fresh(rng) && fresh(data) && rng.Valid()
      ensures data[..] == CallOrder(Normalize(seed0))
      ensures IsCallOrder(data[..])
      ensures rng.seed == Iterate(Normalize(seed0), 74)
    {
      seed := seed0;
      var r := new SeededRandom(seed0);
      numbersCalled := numbersCalled0;
      var a := new int[75](k => k + 1);
      assert a[..] == Range(1, 75);
      r.Shuffle(a);
      assert IsCallOrder(a[..]) by {
        CallOrderIsPermutation(Normalize(seed0));
      }
      rng := r;
      data := a;
    }
  }
}
