/** The 3x3 board of the game and the win detector that scans it.

    A board is a row-major sequence of nine cells; a cell is empty (`None`)
    or holds one of the two marks. */
module Board {
  import opened Wrappers

  datatype Mark = X | O

  type Cell = Option<Mark>

  /** A position on the board, 0..8, row-major. */
  type Index = i: int | 0 <= i < 9

  type Board = b: seq<Cell> | |b| == 9
    witness [None, None, None, None, None, None, None, None, None]

  const EmptyBoard: Board := [None, None, None, None, None, None, None, None, None]

  /** Three cells that win the game when they all hold the same mark. */
  datatype Line = Line(a: Index, b: Index, c: Index)

  /** The eight lines in the order the detector scans them: the three rows,
      the three columns, then the two diagonals. */
  const Lines: seq<Line> := [
    Line(0, 1, 2), Line(3, 4, 5), Line(6, 7, 8),
    Line(0, 3, 6), Line(1, 4, 7), Line(2, 5, 8),
    Line(0, 4, 8), Line(2, 4, 6)
  ]

  /** Line `k` of the scan order holds mark `m` in all three of its cells. */
  predicate Complete(b: Board, k: int, m: Mark)
  {
    0 <= k < |Lines| &&
    var l := Lines[k];
    b[l.a] == Some(m) && b[l.b] == Some(m) && b[l.c] == Some(m)
  }

  /** Some line of the board holds mark `m` throughout. */
  ghost predicate HasLine(b: Board, m: Mark)
  {
    exists k :: Complete(b, k, m)
  }

  /** Line `j` is complete with `m`, and no line scanned from position `k`
      up to it is complete: a scan started at `k` stops at `j`. */
  ghost predicate FirstComplete(b: Board, k: int, j: int, m: Mark)
  {
    k <= j && Complete(b, j, m) && forall i, m' :: k <= i < j ==> !Complete(b, i, m')
  }

  /** The scan of the lines from position `k` on: the mark of the first line
      whose three cells are non-empty and equal, or `None` when there is none. */
  function Scan(b: Board, k: nat): (r: Option<Mark>)
    requires k <= |Lines|
    ensures r.None? <==> forall j, m :: k <= j ==> !Complete(b, j, m)
    ensures r.Some? ==> exists j :: FirstComplete(b, k, j, r.value)
    decreases |Lines| - k
  {
    if k == |Lines| then None
    else
      var l := Lines[k];
      if b[l.a].Some? && b[l.a] == b[l.b] && b[l.a] == b[l.c] then
        assert FirstComplete(b, k, k, b[l.a].value);
        b[l.a]
      else
        assert forall m :: !Complete(b, k, m);
        var r := Scan(b, k + 1);
        assert r.Some? ==> forall k', j ::
          k' == k + 1 && FirstComplete(b, k', j, r.value) ==> FirstComplete(b, k, j, r.value);
        r
  }

  /** The winner of the board: the mark of the first complete line in scan
      order, `None` when no line is complete. */
  function CheckWinner(b: Board): (r: Option<Mark>)
    ensures r.None? <==> forall k, m :: !Complete(b, k, m)
    ensures r.Some? ==> exists j :: FirstComplete(b, 0, j, r.value)
  {
    Scan(b, 0)
  }

  /** The detector reports a mark only when that mark owns a line, and reports
      some mark whenever any line is owned. */
  lemma WinnerHasLine(b: Board, m: Mark)
    ensures CheckWinner(b) == Some(m) ==> HasLine(b, m)
    ensures HasLine(b, m) ==> CheckWinner(b).Some?
  {
  }

  /** No mark owns a line exactly when the detector reports none. */
  lemma NoWinnerIffNoLine(b: Board)
    ensures CheckWinner(b) == None <==> !HasLine(b, X) && !HasLine(b, O)
  {
    match CheckWinner(b)
    case Some(m) =>
      WinnerHasLine(b, m);
      assert m == X || m == O;
    case None =>
  }

  /** When several lines are complete, the one scanned first decides. */
  lemma FirstLineDecides(b: Board, j: int, m: Mark)
    requires FirstComplete(b, 0, j, m)
    ensures CheckWinner(b) == Some(m)
  {
  }

  lemma EmptyBoardHasNoWinner()
    ensures CheckWinner(EmptyBoard) == None
  {
  }

  /** The number of cells of `b` equal to `c`. */
  function Count(b: seq<Cell>, c: Cell): (n: nat)
    ensures n <= |b|
    ensures n == 0 <==> c !in b
  {
    if b == [] then 0
    else (if b[0] == c then 1 else 0) + Count(b[1..], c)
  }

  /** Writing `c'` into cell `i` moves one unit of count from the old content
      of that cell to `c'`. */
  lemma {:induction false} CountUpdate(b: seq<Cell>, i: nat, c': Cell, c: Cell)
    requires i < |b|
    ensures Count(b[i := c'], c) + (if b[i] == c then 1 else 0)
         == Count(b, c) + (if c' == c then 1 else 0)
  {
    if i == 0 {
      assert b[i := c'][1..] == b[1..];
    } else {
      assert b[i := c'][1..] == b[1..][i - 1 := c'];
      CountUpdate(b[1..], i - 1, c', c);
    }
  }

  /** A complete line puts at least three of its mark on the board. */
  lemma LineNeedsThree(b: Board, k: int, m: Mark)
    requires Complete(b, k, m)
    ensures Count(b, Some(m)) >= 3
  {
    var l := Lines[k];
    assert k == 0 || k == 1 || k == 2 || k == 3 || k == 4 || k == 5 || k == 6 || k == 7;
    assert l.a != l.b && l.b != l.c && l.a != l.c;
    var b1 := b[l.a := None];
    var b2 := b1[l.b := None];
    CountUpdate(b, l.a, None, Some(m));
    CountUpdate(b1, l.b, None, Some(m));
    CountUpdate(b2, l.c, None, Some(m));
  }

  /** Nobody can own a line before placing three marks, so a board with at
      most two of each mark has no winner. */
  lemma FewMarksNoWinner(b: Board)
    requires Count(b, Some(X)) < 3 && Count(b, Some(O)) < 3
    ensures CheckWinner(b) == None
  {
    forall k, m | Complete(b, k, m)
      ensures false
    {
      assert m == X || m == O;
      LineNeedsThree(b, k, m);
    }
  }

  /** Every cell is empty, an X or an O. */
  lemma {:induction false} CountPartition(b: seq<Cell>)
    ensures Count(b, Some(X)) + Count(b, Some(O)) + Count(b, None) == |b|
  {
    if b != [] {
      CountPartition(b[1..]);
      match b[0]
      case None =>
      case Some(m) => assert m == X || m == O;
    }
  }
}
