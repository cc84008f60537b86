/** The shape of a bingo card (bingo-gen.js:48-57): five columns B, I, N, G, O
    of five cells each, indexed `data[column][row]`, with column c drawn from
    [15c + 1, 15c + 15] and the centre cell `N[2]` replaced by the free marker. */
module Layout {

  /** A cell: a number, or the free marker `'X'` (bingo-gen.js:55). */
  datatype Cell = Number(value: int) | Free

  /** Five columns of five cells, `data[column][row]` as in bingo-gen.js:57. */
  type Grid = seq<seq<Cell>>

  /** The column and row of the free centre cell. */
  const Centre: int := 2

  /** The column letters, in generation order (bingo-gen.js:157). */
  const ColumnNames: seq<char> := ['B', 'I', 'N', 'G', 'O']

  /** The smallest and largest number of column `c` (bingo-gen.js:48-52). */
  function ColumnLow(c: int): (low: int) { 15 * c + 1 }
  function ColumnHigh(c: int): (high: int) { 15 * c + 15 }

  predicate IsGrid(g: Grid) {
    |g| == 5 && forall c :: 0 <= c < 5 ==> |g[c]| == 5
  }

  /** Every cell but the centre holds a number of its column's range, the
      numbers of a column are pairwise distinct, and the centre is free. */
  predicate WellFormed(g: Grid) {
    IsGrid(g) &&
    g[Centre][Centre] == Free &&
    (forall c, r :: 0 <= c < 5 && 0 <= r < 5 && (c, r) != (Centre, Centre) ==>
       g[c][r].Number? && ColumnLow(c) <= g[c][r].value <= ColumnHigh(c)) &&
    (forall c, r, r' :: 0 <= c < 5 && 0 <= r < r' < 5 && g[c][r].Number? && g[c][r'].Number? ==>
       g[c][r].value != g[c][r'].value)
  }
}
