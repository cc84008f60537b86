/** `BingoCard` (bingo-gen.js:37-200): the card a seed generates, and the win
    check against a prefix of a call list. */
module Cards {
  import opened Lehmer
  import opened Shuffling
  import opened Rng
  import opened Layout
  import opened WinCheck
  import opened Calls

  /** Numbers as card cells. */
  function Cells(col: seq<int>): (r: seq<Cell>)
    ensures |r| == |col|
    ensures forall k :: 0 <= k < |col| ==> r[k] == Number(col[k])
  {
    seq(|col|, k requires 0 <= k < |col| => Number(col[k]))
  }

  /** The card generated from a generator state (bingo-gen.js:48-57): five
      samples of five, in the order B, I, N, G, O on the one generator, then
      the centre of N made free. The result pairs the state left behind with
      the grid. */
  function CardFrom(s: int): (r: (int, Grid))
    requires ValidState(s)
  {
    var b := Sample(s, 1, 15, 5);
    var i := Sample(b.0, 16, 30, 5);
    var n := Sample(i.0, 31, 45, 5);
    var g := Sample(n.0, 46, 60, 5);
    var o := Sample(g.0, 61, 75, 5);
    SampleFacts(i.0, 31, 45, 5);
    (o.0, [Cells(b.1), Cells(i.1), Cells(n.1)[Centre := Free], Cells(g.1), Cells(o.1)])
  }

  /** Five distinct numbers of column `c`'s range. */
  predicate ColumnOk(col: seq<int>, c: int) {
    |col| == 5 && Distinct(col) && forall k :: 0 <= k < 5 ==> ColumnLow(c) <= col[k] <= ColumnHigh(c)
  }

  /** A sample of five from column `c`'s range is a good column and costs
      14 draws. */
  lemma SampledColumn(s: int, c: int)
    requires ValidState(s)
    ensures ColumnOk(Sample(s, ColumnLow(c), ColumnHigh(c), 5).1, c)
    ensures Sample(s, ColumnLow(c), ColumnHigh(c), 5).0 == Iterate(s, 14)
  {
    SampleFacts(s, ColumnLow(c), ColumnHigh(c), 5);
    var col := Sample(s, ColumnLow(c), ColumnHigh(c), 5).1;
    forall k | 0 <= k < 5
      ensures ColumnLow(c) <= col[k] <= ColumnHigh(c)
    {
      assert col[k] in col;
    }
  }

  /** Five good columns, with the centre of the third made free, form a
      well-formed card. */
  lemma ColumnsFormCard(b: seq<int>, i: seq<int>, n: seq<int>, g: seq<int>, o: seq<int>)
    requires ColumnOk(b, 0) && ColumnOk(i, 1) && ColumnOk(n, 2) && ColumnOk(g, 3) && ColumnOk(o, 4)
    ensures WellFormed([Cells(b), Cells(i), Cells(n)[Centre := Free], Cells(g), Cells(o)])
  {
    var grid := [Cells(b), Cells(i), Cells(n)[Centre := Free], Cells(g), Cells(o)];
    var cols := [b, i, n, g, o];
    assert forall c :: 0 <= c < 5 ==> ColumnOk(cols[c], c);
    forall c, r | 0 <= c < 5 && 0 <= r < 5 && (c, r) != (Centre, Centre)
      ensures grid[c][r] == Number(cols[c][r])
    {
    }
  }

  /** Every generated card is well formed (five columns of five, column c
      holding distinct numbers of [15c + 1, 15c + 15], the centre free), and
      generating it costs exactly 5 * 14 = 70 draws. */
  lemma CardIsWellFormed(s: int)
    requires ValidState(s)
    ensures WellFormed(CardFrom(s).1)
    ensures CardFrom(s).0 == Iterate(s, 70)
  {
    var b := Sample(s, 1, 15, 5);
    var i := Sample(b.0, 16, 30, 5);
    var n := Sample(i.0, 31, 45, 5);
    var g := Sample(n.0, 46, 60, 5);
    SampledColumn(s, 0);
    SampledColumn(b.0, 1);
    SampledColumn(i.0, 2);
    SampledColumn(n.0, 3);
    SampledColumn(g.0, 4);
    ColumnsFormCard(b.1, i.1, n.1, g.1, Sample(g.0, 61, 75, 5).1);
    IterateAdd(s, 14, 14);
    IterateAdd(s, 28, 14);
    IterateAdd(s, 42, 14);
    IterateAdd(s, 56, 14);
  }

  /** CardFrom unfolded for five given samples. */
  lemma CardFromColumns(s: int, b: (int, seq<int>), i: (int, seq<int>), n: (int, seq<int>),
                        g: (int, seq<int>), o: (int, seq<int>))
    requires ValidState(s)
    requires b == Sample(s, 1, 15, 5) && i == Sample(b.0, 16, 30, 5) && n == Sample(i.0, 31, 45, 5)
    requires g == Sample(n.0, 46, 60, 5) && o == Sample(g.0, 61, 75, 5)
    ensures |n.1| == 5
    ensures CardFrom(s) == (o.0, [Cells(b.1), Cells(i.1), Cells(n.1)[Centre := Free], Cells(g.1), Cells(o.1)])
    ensures WellFormed(CardFrom(s).1) && CardFrom(s).0 == Iterate(s, 70)
  {
    SampleFacts(i.0, 31, 45, 5);
    CardIsWellFormed(s);
  }

  class BingoCard {
    /** The seed the card was made from (`this.seed`). */
    var seed: int
    var rng: SeededRandom
    /** The columns B, I, N, G, O (`this.data`). */
    var data: Grid
    /** The numbers called so far; None stands for `null`. */
    var calledNumbers: Option<seq<int>>

    /** bingo-gen.js:38-59 on the seeded path: one generator, five samples
        in column order, the centre of N overwritten with the free marker. */
    constructor (seed0: int)
      requires ValidSeed(seed0)
      ensures seed == seed0 && fresh(rng) && rng.Valid()
      ensures (rng.seed, data) == CardFrom(Normalize(seed0))
      ensures WellFormed(data)
      ensures rng.seed == Iterate(Normalize(seed0), 70)
      ensures calledNumbers == None
    {
      seed := seed0;
      var r := new SeededRandom(seed0);
      ghost var s0 := r.seed;
      var b := r.SampleRange(1, 15, 5);
      ghost var s1 := r.seed;
      var i := r.SampleRange(16, 30, 5);
      ghost var s2 := r.seed;
      var n := r.SampleRange(31, 45, 5);
      ghost var s3 := r.seed;
      var g := r.SampleRange(46, 60, 5);
      ghost var s4 := r.seed;
      var o := r.SampleRange(61, 75, 5);
      CardFromColumns(s0, (s1, b), (s2, i), (s3, n), (s4, g), (r.seed, o));
      var nCells := Cells(n)[Centre := Free];
      rng := r;
      data := [Cells(b), Cells(i), nCells, Cells(g), Cells(o)];
      calledNumbers := None;
    }

    /** The computation of bingo-gen.js:126-128: the called numbers are the
        first `numbersCalled` entries of the call list (JavaScript slice
        semantics), and the win type is computed from them. */
    method CheckWin(callList: CallList, numbersCalled: int) returns (win: Option<Win>)
      requires IsGrid(data)
      modifies this`calledNumbers
      ensures calledNumbers == Some(SliceTo(callList.data[..], numbersCalled))
      ensures win == WinType(data, calledNumbers)
      ensures numbersCalled == 0 ==> win == None
      ensures WellFormed(data) && IsCallOrder(callList.data[..]) && numbersCalled >= 75 ==>
                win == Some(Row(1))
    {
      calledNumbers := Some(SliceTo(callList.data[..], numbersCalled));
      win := WinType(data, calledNumbers);
      if numbersCalled == 0 {
        NoCallsNoWin(data, callList.data[..]);
      } else if WellFormed(data) && IsCallOrder(callList.data[..]) && numbersCalled >= 75 {
        FullCallListWinsRowOne(data, callList.data[..], numbersCalled);
      }
    }
  }

  /** After all 75 calls every number of a well-formed card is called, so the
      first row is complete and is reported first. */
  lemma AllCalledRowOne(g: Grid, order: seq<int>)
    requires WellFormed(g)
    requires forall v :: 1 <= v <= 75 ==> v in order
    ensures WinType(g, Some(order)) == Some(Row(1))
  {
    forall k | 0 <= k < 5
      ensures Marked(g, order, LineCell(0, k).0, LineCell(0, k).1)
    {
      assert LineCell(0, k) == (k, 0);
      assert ColumnLow(k) <= g[k][0].value <= ColumnHigh(k);
    }
    RowOneFirst(g, order);
  }

  /** With nothing called (`numbersCalled` 0) no card wins. */
  lemma NoCallsNoWin(g: Grid, order: seq<int>)
    requires IsGrid(g)
    ensures WinType(g, Some(SliceTo(order, 0))) == None
  {
    assert SliceTo(order, 0) == [];
    NothingCalledNoWin(g);
  }

  /** With the whole call list called (`numbersCalled` 75 or more) every
      well-formed card wins on its first row, whatever the call order. */
  lemma FullCallListWinsRowOne(g: Grid, order: seq<int>, numbersCalled: int)
    requires WellFormed(g) && |order| == 75 && numbersCalled >= 75
    requires forall v :: 1 <= v <= 75 ==> v in order
    ensures WinType(g, Some(SliceTo(order, numbersCalled))) == Some(Row(1))
  {
    assert SliceTo(order, numbersCalled) == order;
    AllCalledRowOne(g, order);
  }

  /** One more call keeps a win a win and can only move the reported line
      earlier in the priority order. */
  lemma OneMoreCallKeepsWin(g: Grid, order: seq<int>, k: int)
    requires IsGrid(g) && k >= 0
    requires WinType(g, Some(SliceTo(order, k))).Some?
    ensures WinType(g, Some(SliceTo(order, k + 1))).Some?
    ensures Rank(WinType(g, Some(SliceTo(order, k + 1))).value) <= Rank(WinType(g, Some(SliceTo(order, k))).value)
  {
    SliceToGrows(order, k);
    var called, more := SliceTo(order, k), SliceTo(order, k + 1);
    forall x | x in called
      ensures x in more
    {
      var i :| 0 <= i < |called| && called[i] == x;
      assert more[i] == x;
    }
    MoreCalledWinsEarlier(g, called, more);
  }
}
