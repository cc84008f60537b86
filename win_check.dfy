/** `BingoCard.getWinType` (bingo-gen.js:138-199) as a function of the grid and
    the called numbers: twelve lines scanned in a fixed order, the centre
    cell counted as marked, the first complete line reported. */
module WinCheck {
  import opened Layout

  datatype Option<T> = None | Some(value: T)

  /** The strings getWinType returns: `'Row ' + (row + 1)`,
      `'Column ' + letter`, `'Diagonal'`. */
  datatype Win = Row(number: int) | Column(letter: char) | Diagonal

  /** The lines in the order they are scanned: rows 0-4 are lines 0-4,
      columns B-O are lines 5-9, the main diagonal is line 10 and the
      anti-diagonal line 11. */
  const LineCount: int := 12

  /** The (column, row) of the k-th cell of a line, as the loops of
      bingo-gen.js:142-196 read `data[col][row]`, `data[i][i]` and
      `data[4 - i][i]`. */
  function LineCell(line: int, k: int): (cell: (int, int))
    requires 0 <= line < LineCount && 0 <= k < 5
    ensures 0 <= cell.0 < 5 && 0 <= cell.1 < 5
  {
    if line < 5 then (k, line)
    else if line < 10 then (line - 5, k)
    else if line == 10 then (k, k)
    else (4 - k, k)
  }

  /** A cell counts as called when it is the centre or its value is among
      the called numbers (`calledNumbers.includes(value)`). */
  predicate Marked(g: Grid, called: seq<int>, col: int, row: int)
    requires IsGrid(g) && 0 <= col < 5 && 0 <= row < 5
  {
    (col == Centre && row == Centre) || (g[col][row].Number? && g[col][row].value in called)
  }

  predicate LineComplete(g: Grid, called: seq<int>, line: int)
    requires IsGrid(g) && 0 <= line < LineCount
  {
    forall k :: 0 <= k < 5 ==> Marked(g, called, LineCell(line, k).0, LineCell(line, k).1)
  }

  /** The first complete line at or after `from`, in scan order. */
  function FirstComplete(g: Grid, called: seq<int>, from: int): (r: Option<int>)
    requires IsGrid(g) && 0 <= from <= LineCount
    ensures r.Some? ==> from <= r.value < LineCount && LineComplete(g, called, r.value)
    ensures forall l :: from <= l < LineCount && (r.None? || l < r.value) ==> !LineComplete(g, called, l)
    decreases LineCount - from
  {
    if from == LineCount then None
    else if LineComplete(g, called, from) then Some(from)
    else FirstComplete(g, called, from + 1)
  }

  /** What a line reports when it wins: each row and column its own label,
      in scan order, and both diagonals the one label 'Diagonal'. */
  function Label(line: int): (w: Win)
    requires 0 <= line < LineCount
    ensures Rank(w) == if line < 10 then line else 10
    ensures w.Diagonal? <==> line >= 10
    ensures w.Column? ==> w.letter == ColumnNames[line - 5]
  {
    if line < 5 then Row(line + 1)
    else if line < 10 then Column(ColumnNames[line - 5])
    else Diagonal
  }

  /** The position of a reported win in the priority order. */
  function Rank(w: Win): (position: int) {
    match w
    case Row(n) => n - 1
    case Column(letter) =>
      if letter == 'B' then 5 else if letter == 'I' then 6
      else if letter == 'N' then 7 else if letter == 'G' then 8 else 9
    case Diagonal => 10
  }

  /** getWinType: None when no numbers have been called (`calledNumbers` is
      null), otherwise the label of the first complete line, or None when no
      line is complete. */
  function WinType(g: Grid, called: Option<seq<int>>): (r: Option<Win>)
    requires IsGrid(g)
    ensures called.None? ==> r.None?
    ensures called.Some? ==>
              (r.None? <==> forall l :: 0 <= l < LineCount ==> !LineComplete(g, called.value, l))
    ensures called.Some? && r.Some? ==>
              exists l :: 0 <= l < LineCount && LineComplete(g, called.value, l) && r.value == Label(l) &&
                forall l' :: 0 <= l' < l ==> !LineComplete(g, called.value, l')
  {
    if called.None? then None
    else
      match FirstComplete(g, called.value, 0)
      case None => None
      case Some(l) => Some(Label(l))
  }

  /** A complete first row wins as 'Row 1', whatever else is complete: the
      tie-break that puts rows before columns and diagonals. */
  lemma RowOneFirst(g: Grid, called: seq<int>)
    requires IsGrid(g) && LineComplete(g, called, 0)
    ensures WinType(g, Some(called)) == Some(Row(1))
  {
  }

  /** With nothing called (an empty list, not null) no line is complete:
      every line has a cell other than the centre. */
  lemma NothingCalledNoWin(g: Grid)
    requires IsGrid(g)
    ensures WinType(g, Some([])) == None
  {
    forall l | 0 <= l < LineCount
      ensures !LineComplete(g, [], l)
    {
      assert !Marked(g, [], LineCell(l, 0).0, LineCell(l, 0).1);
    }
  }

  /** Calling more numbers keeps a win a win, and the reported win can only
      move to an earlier place in the priority order. */
  lemma MoreCalledWinsEarlier(g: Grid, called: seq<int>, more: seq<int>)
    requires IsGrid(g)
    requires forall x :: x in called ==> x in more
    requires WinType(g, Some(called)).Some?
    ensures WinType(g, Some(more)).Some?
    ensures Rank(WinType(g, Some(more)).value) <= Rank(WinType(g, Some(called)).value)
  {
    var l := FirstComplete(g, called, 0).value;
    assert LineComplete(g, more, l) by {
      forall k | 0 <= k < 5
        ensures Marked(g, more, LineCell(l, k).0, LineCell(l, k).1)
      {
        assert Marked(g, called, LineCell(l, k).0, LineCell(l, k).1);
      }
    }
    var m := FirstComplete(g, more, 0).value;
    assert m <= l;
    assert Rank(Label(m)) <= Rank(Label(l));
  }
}
