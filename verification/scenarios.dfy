/** Whole rounds played click by click from the initial state. Each round is
    spelled out as the states it passes through, with one lemma per click;
    rounds that open with the same clicks share their first states. */
module Scenarios {
  import opened Wrappers
  import opened Board
  import opened Game
  import opened Invariants

  /** If each click takes one listed state to the next, playing the clicks
      from the first state ends in the last one. */
  lemma {:induction false} PlayThrough(states: seq<State>, moves: seq<Index>)
    requires |states| == |moves| + 1
    requires forall k :: 0 <= k < |moves| ==> HandleMove(states[k], moves[k]) == states[k + 1]
    ensures Play(states[0], moves) == states[|moves|]
    decreases |moves|
  {
    if moves != [] {
      PlayThrough(states[1..], moves[1..]);
    }
  }

  /** A click that completes no line: the mark is written and the turn passes. */
  lemma QuietMove(s: State, i: Index, r: State)
    requires Accepts(s, i) && r.board == s.board[i := Some(MarkOf(s.player))]
    requires CheckWinner(r.board) == None
    requires r.player == Next(s.player) && r.winner == None && r.scores == s.scores
    ensures HandleMove(s, i) == r
  {
  }

  // Round A: X takes the top row (cells 0, 1, 2) while O plays 3 and 4.

  const A1 := State([Some(X), None, None, None, None, None, None, None, None], Player2, None, Scores(0, 0))
  lemma A1Quiet() ensures CheckWinner(A1.board) == None {
    var b := A1.board;
    assert Scan(b, 8) == None;
    assert Scan(b, 7) == None;
    assert Scan(b, 6) == None;
    assert Scan(b, 5) == None;
    assert Scan(b, 4) == None;
    assert Scan(b, 3) == None;
    assert Scan(b, 2) == None;
    assert Scan(b, 1) == None;
  }
  lemma A1Move() ensures HandleMove(Initial, 0) == A1 {
    A1Quiet();
    assert Initial.board[0 := Some(X)] == A1.board;
    QuietMove(Initial, 0, A1);
  }

  const A2 := State([Some(X), None, None, Some(O), None, None, None, None, None], Player1, None, Scores(0, 0))
  lemma A2Quiet() ensures CheckWinner(A2.board) == None {
    var b := A2.board;
    assert Scan(b, 8) == None;
    assert Scan(b, 7) == None;
    assert Scan(b, 6) == None;
    assert Scan(b, 5) == None;
    assert Scan(b, 4) == None;
    assert Scan(b, 3) == None;
    assert Scan(b, 2) == None;
    assert Scan(b, 1) == None;
  }
  lemma A2Move() ensures HandleMove(A1, 3) == A2 {
    A2Quiet();
    assert A1.board[3 := Some(O)] == A2.board;
    QuietMove(A1, 3, A2);
  }

  const A3 := State([Some(X), Some(X), None, Some(O), None, None, None, None, None], Player2, None, Scores(0, 0))
  lemma A3Quiet() ensures CheckWinner(A3.board) == None {
    var b := A3.board;
    assert Scan(b, 8) == None;
    assert Scan(b, 7) == None;
    assert Scan(b, 6) == None;
    assert Scan(b, 5) == None;
    assert Scan(b, 4) == None;
    assert Scan(b, 3) == None;
    assert Scan(b, 2) == None;
    assert Scan(b, 1) == None;
  }
  lemma A3Move() ensures HandleMove(A2, 1) == A3 {
    A3Quiet();
    assert A2.board[1 := Some(X)] == A3.board;
    QuietMove(A2, 1, A3);
  }

  const A4 := State([Some(X), Some(X), None, Some(O), Some(O), None, None, None, None], Player1, None, Scores(0, 0))
  lemma A4Quiet() ensures CheckWinner(A4.board) == None {
    var b := A4.board;
    assert Scan(b, 8) == None;
    assert Scan(b, 7) == None;
    assert Scan(b, 6) == None;
    assert Scan(b, 5) == None;
    assert Scan(b, 4) == None;
    assert Scan(b, 3) == None;
    assert Scan(b, 2) == None;
    assert Scan(b, 1) == None;
  }
  lemma A4Move() ensures HandleMove(A3, 4) == A4 {
    A4Quiet();
    assert A3.board[4 := Some(O)] == A4.board;
    QuietMove(A3, 4, A4);
  }

  const A5 := State([Some(X), Some(X), Some(X), Some(O), Some(O), None, None, None, None], Player1, Some(X), Scores(1, 0))
  lemma A5Line() ensures Complete(A5.board, 0, X) {
  }
  lemma A5Wins() ensures CheckWinner(A5.board) == Some(X) {
    assert Scan(A5.board, 0) == Some(X);
  }
  // The clicked cell is a parameter so the verifier does not evaluate the whole
  // move on literal arguments, which is far more costly than reasoning about it.
  lemma A5Move(i: Index)
    requires i == 2
    ensures HandleMove(A4, i) == A5
  {
    var b := A4.board[i := Some(X)];
    assert b == A5.board;
    A5Wins();
    assert CheckWinner(b) == Some(X);
  }

  // Round B: X takes the left column (cells 0, 3, 6) while O plays 1 and 4.

  const B2 := State([Some(X), Some(O), None, None, None, None, None, None, None], Player1, None, Scores(0, 0))
  lemma B2Quiet() ensures CheckWinner(B2.board) == None {
    var b := B2.board;
    assert Scan(b, 8) == None;
    assert Scan(b, 7) == None;
    assert Scan(b, 6) == None;
    assert Scan(b, 5) == None;
    assert Scan(b, 4) == None;
    assert Scan(b, 3) == None;
    assert Scan(b, 2) == None;
    assert Scan(b, 1) == None;
  }
  lemma B2Move() ensures HandleMove(A1, 1) == B2 {
    B2Quiet();
    assert A1.board[1 := Some(O)] == B2.board;
    QuietMove(A1, 1, B2);
  }

  const B3 := State([Some(X), Some(O), None, Some(X), None, None, None, None, None], Player2, None, Scores(0, 0))
  lemma B3Quiet() ensures CheckWinner(B3.board) == None {
    var b := B3.board;
    assert Scan(b, 8) == None;
    assert Scan(b, 7) == None;
    assert Scan(b, 6) == None;
    assert Scan(b, 5) == None;
    assert Scan(b, 4) == None;
    assert Scan(b, 3) == None;
    assert Scan(b, 2) == None;
    assert Scan(b, 1) == None;
  }
  lemma B3Move() ensures HandleMove(B2, 3) == B3 {
    B3Quiet();
    assert B2.board[3 := Some(X)] == B3.board;
    QuietMove(B2, 3, B3);
  }

  const B4 := State([Some(X), Some(O), None, Some(X), Some(O), None, None, None, None], Player1, None, Scores(0, 0))
  lemma B4Quiet() ensures CheckWinner(B4.board) == None {
    var b := B4.board;
    assert Scan(b, 8) == None;
    assert Scan(b, 7) == None;
    assert Scan(b, 6) == None;
    assert Scan(b, 5) == None;
    assert Scan(b, 4) == None;
    assert Scan(b, 3) == None;
    assert Scan(b, 2) == None;
    assert Scan(b, 1) == None;
  }
  lemma B4Move() ensures HandleMove(B3, 4) == B4 {
    B4Quiet();
    assert B3.board[4 := Some(O)] == B4.board;
    QuietMove(B3, 4, B4);
  }

  const B5 := State([Some(X), Some(O), None, Some(X), Some(O), None, Some(X), None, None], Player1, Some(X), Scores(1, 0))
  lemma B5Line() ensures Complete(B5.board, 3, X) {
  }
  lemma B5Wins() ensures CheckWinner(B5.board) == Some(X) {
    var b := B5.board;
    assert Scan(b, 3) == Some(X);
    assert Scan(b, 2) == Some(X);
    assert Scan(b, 1) == Some(X);
  }
  // The clicked cell is a parameter so the verifier does not evaluate the whole
  // move on literal arguments, which is far more costly than reasoning about it.
  lemma B5Move(i: Index)
    requires i == 6
    ensures HandleMove(B4, i) == B5
  {
    var b := B4.board[i := Some(X)];
    assert b == B5.board;
    B5Wins();
    assert CheckWinner(b) == Some(X);
  }

  // Round C: nine clicks that complete no line.

  const C3 := State([Some(X), Some(O), Some(X), None, None, None, None, None, None], Player2, None, Scores(0, 0))
  lemma C3Quiet() ensures CheckWinner(C3.board) == None {
    var b := C3.board;
    assert Scan(b, 8) == None;
    assert Scan(b, 7) == None;
    assert Scan(b, 6) == None;
    assert Scan(b, 5) == None;
    assert Scan(b, 4) == None;
    assert Scan(b, 3) == None;
    assert Scan(b, 2) == None;
    assert Scan(b, 1) == None;
  }
  lemma C3Move() ensures HandleMove(B2, 2) == C3 {
    C3Quiet();
    assert B2.board[2 := Some(X)] == C3.board;
    QuietMove(B2, 2, C3);
  }

  const C4 := State([Some(X), Some(O), Some(X), None, Some(O), None, None, None, None], Player1, None, Scores(0, 0))
  lemma C4Quiet() ensures CheckWinner(C4.board) == None {
    var b := C4.board;
    assert Scan(b, 8) == None;
    assert Scan(b, 7) == None;
    assert Scan(b, 6) == None;
    assert Scan(b, 5) == None;
    assert Scan(b, 4) == None;
    assert Scan(b, 3) == None;
    assert Scan(b, 2) == None;
    assert Scan(b, 1) == None;
  }
  lemma C4Move() ensures HandleMove(C3, 4) == C4 {
    C4Quiet();
    assert C3.board[4 := Some(O)] == C4.board;
    QuietMove(C3, 4, C4);
  }

  const C5 := State([Some(X), Some(O), Some(X), Some(X), Some(O), None, None, None, None], Player2, None, Scores(0, 0))
  lemma C5Quiet() ensures CheckWinner(C5.board) == None {
    var b := C5.board;
    assert Scan(b, 8) == None;
    assert Scan(b, 7) == None;
    assert Scan(b, 6) == None;
    assert Scan(b, 5) == None;
    assert Scan(b, 4) == None;
    assert Scan(b, 3) == None;
    assert Scan(b, 2) == None;
    assert Scan(b, 1) == None;
  }
  lemma C5Move() ensures HandleMove(C4, 3) == C5 {
    C5Quiet();
    assert C4.board[3 := Some(X)] == C5.board;
    QuietMove(C4, 3, C5);
  }

  const C6 := State([Some(X), Some(O), Some(X), Some(X), Some(O), Some(O), None, None, None], Player1, None, Scores(0, 0))
  lemma C6Quiet() ensures CheckWinner(C6.board) == None {
    var b := C6.board;
    assert Scan(b, 8) == None;
    assert Scan(b, 7) == None;
    assert Scan(b, 6) == None;
    assert Scan(b, 5) == None;
    assert Scan(b, 4) == None;
    assert Scan(b, 3) == None;
    assert Scan(b, 2) == None;
    assert Scan(b, 1) == None;
  }
  lemma C6Move() ensures HandleMove(C5, 5) == C6 {
    C6Quiet();
    assert C5.board[5 := Some(O)] == C6.board;
    QuietMove(C5, 5, C6);
  }

  const C7 := State([Some(X), Some(O), Some(X), Some(X), Some(O), Some(O), None, Some(X), None], Player2, None, Scores(0, 0))
  lemma C7Quiet() ensures CheckWinner(C7.board) == None {
    var b := C7.board;
    assert Scan(b, 8) == None;
    assert Scan(b, 7) == None;
    assert Scan(b, 6) == None;
    assert Scan(b, 5) == None;
    assert Scan(b, 4) == None;
    assert Scan(b, 3) == None;
    assert Scan(b, 2) == None;
    assert Scan(b, 1) == None;
  }
  lemma C7Move() ensures HandleMove(C6, 7) == C7 {
    C7Quiet();
    assert C6.board[7 := Some(X)] == C7.board;
    QuietMove(C6, 7, C7);
  }

  const C8 := State([Some(X), Some(O), Some(X), Some(X), Some(O), Some(O), Some(O), Some(X), None], Player1, None, Scores(0, 0))
  lemma C8Quiet() ensures CheckWinner(C8.board) == None {
    var b := C8.board;
    assert Scan(b, 8) == None;
    assert Scan(b, 7) == None;
    assert Scan(b, 6) == None;
    assert Scan(b, 5) == None;
    assert Scan(b, 4) == None;
    assert Scan(b, 3) == None;
    assert Scan(b, 2) == None;
    assert Scan(b, 1) == None;
  }
  lemma C8Move() ensures HandleMove(C7, 6) == C8 {
    C8Quiet();
    assert C7.board[6 := Some(O)] == C8.board;
    QuietMove(C7, 6, C8);
  }

  const C9 := State([Some(X), Some(O), Some(X), Some(X), Some(O), Some(O), Some(O), Some(X), Some(X)], Player2, None, Scores(0, 0))
  lemma C9Quiet() ensures CheckWinner(C9.board) == None {
    var b := C9.board;
    assert Scan(b, 8) == None;
    assert Scan(b, 7) == None;
    assert Scan(b, 6) == None;
    assert Scan(b, 5) == None;
    assert Scan(b, 4) == None;
    assert Scan(b, 3) == None;
    assert Scan(b, 2) == None;
    assert Scan(b, 1) == None;
  }
  lemma C9Move() ensures HandleMove(C8, 8) == C9 {
    C9Quiet();
    assert C8.board[8 := Some(X)] == C9.board;
    QuietMove(C8, 8, C9);
  }

  /** Round A ends with X the winner and one round credited to player 1. */
  lemma TopRowWin()
    ensures var r := Play(Initial, [0, 3, 1, 4, 2]);
      r.winner == Some(X) && r.scores == Scores(1, 0) && StatusOf(r) == Won(X) && Complete(r.board, 0, X)
  {
    var moves: seq<Index> := [0, 3, 1, 4, 2];
    var states := [Initial, A1, A2, A3, A4, A5];
    forall k | 0 <= k < |moves|
      ensures HandleMove(states[k], moves[k]) == states[k + 1]
    {
      if k == 0 { A1Move(); }
      else if k == 1 { A2Move(); }
      else if k == 2 { A3Move(); }
      else if k == 3 { A4Move(); }
      else { A5Move(2); }
    }
    PlayThrough(states, moves);
    A5Line();
  }

  /** Round B ends with X the winner and one round credited to player 1. */
  lemma LeftColumnWin()
    ensures var r := Play(Initial, [0, 1, 3, 4, 6]);
      r.winner == Some(X) && r.scores == Scores(1, 0) && StatusOf(r) == Won(X) && Complete(r.board, 3, X)
  {
    var moves: seq<Index> := [0, 1, 3, 4, 6];
    var states := [Initial, A1, B2, B3, B4, B5];
    forall k | 0 <= k < |moves|
      ensures HandleMove(states[k], moves[k]) == states[k + 1]
    {
      if k == 0 { A1Move(); }
      else if k == 1 { B2Move(); }
      else if k == 2 { B3Move(); }
      else if k == 3 { B4Move(); }
      else { B5Move(6); }
    }
    PlayThrough(states, moves);
    B5Line();
  }

  lemma C9Drawn()
    ensures IsDraw(C9) && StatusOf(C9) == Draw
  {
  }

  /** The first four clicks of round C.
      The clicks are a parameter so the verifier does not evaluate the
      whole run on literal arguments. */

  lemma DrawOpening(opening: seq<Index>)
    requires opening == [0, 1, 2, 4]
    ensures Play(Initial, opening) == C4
  {
    var states := [Initial, A1, B2, C3, C4];
    forall k | 0 <= k < |opening|
      ensures HandleMove(states[k], opening[k]) == states[k + 1]
    {
      if k == 0 { A1Move(); }
      else if k == 1 { B2Move(); }
      else if k == 2 { C3Move(); }
      else { C4Move(); }
    }
    PlayThrough(states, opening);
  }

  /** The last five clicks of round C.
      The clicks are a parameter so the verifier does not evaluate the
      whole run on literal arguments. */

  lemma DrawEnding(ending: seq<Index>)
    requires ending == [3, 5, 7, 6, 8]
    ensures Play(C4, ending) == C9
  {
    var states := [C4, C5, C6, C7, C8, C9];
    forall k | 0 <= k < |ending|
      ensures HandleMove(states[k], ending[k]) == states[k + 1]
    {
      if k == 0 { C5Move(); }
      else if k == 1 { C6Move(); }
      else if k == 2 { C7Move(); }
      else if k == 3 { C8Move(); }
      else { C9Move(); }
    }
    PlayThrough(states, ending);
  }

  /** Round C is a draw with no score, and the turn passed to player 2 on the
      last click. The clicks are a parameter, as in `DrawOpening`. */
  lemma FullBoardDraw(moves: seq<Index>)
    requires moves == [0, 1, 2, 4, 3, 5, 7, 6, 8]
    ensures var r := Play(Initial, moves);
      IsDraw(r) && StatusOf(r) == Draw && r.scores == Scores(0, 0) && r.player == Player2
  {
    var opening, ending := moves[..4], moves[4..];
    assert moves == opening + ending;
    DrawOpening(opening);
    DrawEnding(ending);
    PlayAppend(Initial, opening, ending);
    C9Drawn();
  }

  /** A second click on cell 0 is ignored: the cell keeps player 1's X and it
      is still player 2's turn. */
  lemma RepeatedClickIgnored()
    ensures var r := Play(Initial, [0, 0]);
      r == Play(Initial, [0]) && r.board[0] == Some(X) && r.player == Player2
  {
    A1Move();
    PlayThrough([Initial, A1], [0]);
    PlayThrough([Initial, A1, A1], [0, 0]);
  }
}
