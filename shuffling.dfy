/** The generator's list operations as functions of the state: the
    Fisher–Yates shuffle (bingo-gen.js:19-25) and the sampler built on it
    (bingo-gen.js:28-32). Each returns the state it leaves and the list it
    produces; the methods of `Rng.SeededRandom` are proved against them. */
module Shuffling {
  import opened Lehmer

  /** No value occurs twice. */
  predicate Distinct(a: seq<int>) {
    forall i, j :: 0 <= i < j < |a| ==> a[i] != a[j]
  }

  /** The destructuring swap `[a[i], a[j]] = [a[j], a[i]]` (bingo-gen.js:22). */
  function Swap(a: seq<int>, i: int, j: int): (b: seq<int>)
    requires 0 <= i < |a| && 0 <= j < |a|
    ensures |b| == |a| && b[i] == a[j] && b[j] == a[i]
    ensures forall k :: 0 <= k < |a| && k != i && k != j ==> b[k] == a[k]
    ensures multiset(b) == multiset(a)
    ensures Distinct(a) ==> Distinct(b)
  {
    a[i := a[j]][j := a[i]]
  }

  /** The iterations of the shuffle loop for the indices i, i - 1, ..., 1:
      each draws once and swaps position `i` with a position in [0, i].
      The result pairs the state left behind with the shuffled list. */
  function ShuffleFrom(s: int, a: seq<int>, i: int): (r: (int, seq<int>))
    requires ValidState(s) && i < |a|
    ensures ValidState(r.0) && |r.1| == |a|
    decreases i
  {
    if i <= 0 then (s, a)
    else
      var t := Step(s);
      var j := Index(t, i + 1);
      IndexInRange(t, i + 1);
      ShuffleFrom(t, Swap(a, i, j), i - 1)
  }

  /** Each iteration draws once and swaps two positions, so the loop from `i`
      down draws max(i, 0) times and permutes the list, keeping it free of
      duplicates. */
  lemma {:induction false} ShuffleFromFacts(s: int, a: seq<int>, i: int)
    requires ValidState(s) && i < |a|
    ensures ShuffleFrom(s, a, i).0 == Iterate(s, if i > 0 then i else 0)
    ensures multiset(ShuffleFrom(s, a, i).1) == multiset(a)
    ensures Distinct(a) ==> Distinct(ShuffleFrom(s, a, i).1)
    decreases i
  {
    if i > 0 {
      var t := Step(s);
      IndexInRange(t, i + 1);
      ShuffleFromFacts(t, Swap(a, i, Index(t, i + 1)), i - 1);
    }
  }

  /** `shuffle(array)`: the whole loop, from the last index down to 1. */
  function Shuffled(s: int, a: seq<int>): (r: (int, seq<int>))
    requires ValidState(s)
  {
    ShuffleFrom(s, a, |a| - 1)
  }

  /** The shuffle permutes its input and draws exactly max(length - 1, 0)
      times; a list of length 0 or 1 comes back as it was. */
  lemma ShuffledIsPermutation(s: int, a: seq<int>)
    requires ValidState(s)
    ensures ValidState(Shuffled(s, a).0)
    ensures Shuffled(s, a).0 == Iterate(s, if |a| > 0 then |a| - 1 else 0)
    ensures |Shuffled(s, a).1| == |a|
    ensures multiset(Shuffled(s, a).1) == multiset(a)
    ensures forall x :: x in Shuffled(s, a).1 <==> x in a
    ensures Distinct(a) ==> Distinct(Shuffled(s, a).1)
    ensures |a| <= 1 ==> Shuffled(s, a).1 == a
  {
    ShuffleFromFacts(s, a, |a| - 1);
    var b := Shuffled(s, a).1;
    forall x
      ensures x in b <==> x in a
    {
      assert x in b <==> x in multiset(b);
      assert x in a <==> x in multiset(a);
    }
  }

  /** `Array.from({length: max - min + 1}, (_, i) => i + min)`: the integers
      from `lo` to `hi` in order, empty when `hi < lo` (a negative length
      counts as 0). */
  function Range(lo: int, hi: int): (r: seq<int>)
    ensures |r| == if hi - lo + 1 > 0 then hi - lo + 1 else 0
    ensures forall x :: x in r <==> lo <= x <= hi
    ensures Distinct(r)
  {
    var r := seq(if hi - lo + 1 > 0 then hi - lo + 1 else 0, k => lo + k);
    forall x | lo <= x <= hi
      ensures x in r
    {
      assert r[x - lo] == x;
    }
    r
  }

  /** JavaScript's `a.slice(0, end)`: a negative `end` counts from the end of
      the list, and an `end` past the end stops at the end. */
  function SliceTo(a: seq<int>, end: int): (r: seq<int>)
    ensures r <= a
    ensures end >= 0 ==> |r| == if end < |a| then end else |a|
    ensures end < 0 ==> |r| == if |a| + end > 0 then |a| + end else 0
  {
    var stop := if end < 0 then (if |a| + end > 0 then |a| + end else 0)
                else if end < |a| then end else |a|;
    a[..stop]
  }

  /** Raising a non-negative end of a slice by one extends the slice. (From
      -1 to 0 it does not: `slice(0, -1)` drops only the last value.) */
  lemma SliceToGrows(a: seq<int>, end: int)
    requires end >= 0
    ensures SliceTo(a, end) <= SliceTo(a, end + 1)
  {
    var p, q := |SliceTo(a, end)|, |SliceTo(a, end + 1)|;
    assert p <= q;
    assert SliceTo(a, end) == a[..p] && SliceTo(a, end + 1) == a[..q];
  }

  /** `sampleRange(min, max, count)`: shuffle the whole range, then keep the
      first `count` values. */
  function Sample(s: int, lo: int, hi: int, count: int): (r: (int, seq<int>))
    requires ValidState(s)
    ensures ValidState(r.0)
  {
    var (t, b) := Shuffled(s, Range(lo, hi));
    (t, SliceTo(b, count))
  }

  /** The sample holds min(count, hi - lo + 1) distinct values of [lo, hi],
      and it costs exactly max(hi - lo, 0) draws whatever `count` is. */
  lemma SampleFacts(s: int, lo: int, hi: int, count: int)
    requires ValidState(s)
    ensures Sample(s, lo, hi, count).0 == Iterate(s, if hi - lo > 0 then hi - lo else 0)
    ensures Distinct(Sample(s, lo, hi, count).1)
    ensures forall x :: x in Sample(s, lo, hi, count).1 ==> lo <= x <= hi
    ensures count >= 0 ==>
              |Sample(s, lo, hi, count).1| ==
                if count < hi - lo + 1 then count else if hi - lo + 1 > 0 then hi - lo + 1 else 0
  {
    var range := Range(lo, hi);
    ShuffledIsPermutation(s, range);
    var b := Shuffled(s, range).1;
    var r := Sample(s, lo, hi, count).1;
    assert r <= b;
    forall x | x in r
      ensures lo <= x <= hi
    {
      assert x in b;
    }
  }
}
