/** Facts about the rounds the game can actually reach: starting from the
    initial state or a reset, and applying any sequence of moves. */
module Invariants {
  import opened Wrappers
  import opened Board
  import opened Game

  /** The state after a sequence of clicks, one `HandleMove` per click. */
  function Play(s: State, moves: seq<Index>): State
    decreases |moves|
  {
    if moves == [] then s else Play(HandleMove(s, moves[0]), moves[1..])
  }

  /** Playing two runs of clicks one after the other is playing them joined. */
  lemma {:induction false} PlayAppend(s: State, first: seq<Index>, second: seq<Index>)
    ensures Play(s, first + second) == Play(Play(s, first), second)
    decreases |first|
  {
    if first != [] {
      assert (first + second)[1..] == first[1..] + second;
      PlayAppend(HandleMove(s, first[0]), first[1..], second);
    } else {
      assert first + second == second;
    }
  }

  /** What holds of every reachable state. X moves first, so X is never
      behind O and never more than one ahead; while the round is open the
      counts say whose turn it is; the stored winner is what the detector
      finds; and the winner is the only mark that owns a line. */
  ghost predicate Consistent(s: State)
  {
    CountsAgree(s) && WinnerAgrees(s)
  }

  /** The counts of the two marks, and whose turn it is while the round is open. */
  ghost predicate CountsAgree(s: State)
  {
    var nx := Count(s.board, Some(X));
    var no := Count(s.board, Some(O));
    && (nx == no || nx == no + 1)
    && (s.winner.None? ==> (s.player == Player1 <==> nx == no))
  }

  /** The stored winner is what the detector finds, and the only mark that
      owns a line. */
  ghost predicate WinnerAgrees(s: State)
  {
    && s.winner == CheckWinner(s.board)
    && (forall m :: HasLine(s.board, m) ==> s.winner == Some(m))
  }

  lemma ResetConsistent(s: State)
    ensures Consistent(Reset(s))
  {
  }

  lemma InitialConsistent()
    ensures Consistent(Initial)
  {
    ResetConsistent(Initial);
  }

  /** Writing mark `mv` into a cell cannot complete a line of the
      other mark. */
  lemma OtherMarkGainsNoLine(b: Board, i: Index, mv: Mark, m: Mark)
    requires m != mv
    requires HasLine(b[i := Some(mv)], m)
    ensures HasLine(b, m)
  {
    var b' := b[i := Some(mv)];
    var k :| Complete(b', k, m);
    var l := Lines[k];
    assert b'[l.a] == Some(m) && b'[l.b] == Some(m) && b'[l.c] == Some(m);
    assert Complete(b, k, m);
  }

  /** An accepted move on a consistent state: only the mover's mark can win. */
  lemma OnlyMoverCanWin(s: State, i: Index)
    requires Consistent(s) && Accepts(s, i)
    ensures var b' := HandleMove(s, i).board;
      !HasLine(b', Other(MarkOf(s.player))) &&
      (CheckWinner(b').Some? ==> CheckWinner(b') == Some(MarkOf(s.player)))
  {
    var mv := MarkOf(s.player);
    var b' := HandleMove(s, i).board;
    assert b' == s.board[i := Some(mv)];
    if HasLine(b', Other(mv)) {
      OtherMarkGainsNoLine(s.board, i, mv, Other(mv));
      assert false;
    }
    if CheckWinner(b').Some? {
      WinnerHasLine(b', CheckWinner(b').value);
    }
  }

  /** Every move, accepted or not, keeps a consistent state consistent. */
  lemma MovePreservesConsistent(s: State, i: Index)
    requires Consistent(s)
    ensures Consistent(HandleMove(s, i))
  {
    if Accepts(s, i) {
      MoveKeepsCounts(s, i);
      MoveKeepsWinner(s, i);
    }
  }

  /** An accepted move adds one mark of the mover and passes the turn unless
      it wins, so the counts keep agreeing with the turn. */
  lemma MoveKeepsCounts(s: State, i: Index)
    requires CountsAgree(s) && Accepts(s, i)
    ensures CountsAgree(HandleMove(s, i))
  {
    var mv := MarkOf(s.player);
    assert HandleMove(s, i).board == s.board[i := Some(mv)];
    CountUpdate(s.board, i, Some(mv), Some(X));
    CountUpdate(s.board, i, Some(mv), Some(O));
  }

  /** After an accepted move the mover's mark is the only one that can own a
      line, so the stored winner still agrees with the board. */
  lemma MoveKeepsWinner(s: State, i: Index)
    requires Consistent(s) && Accepts(s, i)
    ensures WinnerAgrees(HandleMove(s, i))
  {
    var r := HandleMove(s, i);
    var mv := MarkOf(s.player);
    OnlyMoverCanWin(s, i);
    forall m | HasLine(r.board, m)
      ensures r.winner == Some(m)
    {
      WinnerHasLine(r.board, m);
      assert m == mv || m == Other(mv);
    }
  }

  /** Any sequence of moves keeps a consistent state consistent. */
  lemma {:induction false} PlayPreservesConsistent(s: State, moves: seq<Index>)
    requires Consistent(s)
    ensures Consistent(Play(s, moves))
    decreases |moves|
  {
    if moves != [] {
      MovePreservesConsistent(s, moves[0]);
      PlayPreservesConsistent(HandleMove(s, moves[0]), moves[1..]);
    }
  }

  /** Every state reached from a reset by any clicks is consistent. */
  lemma ReachableIsConsistent(s: State, moves: seq<Index>)
    ensures Consistent(Play(Reset(s), moves))
    ensures Consistent(Play(Initial, moves))
  {
    ResetConsistent(s);
    InitialConsistent();
    PlayPreservesConsistent(Reset(s), moves);
    PlayPreservesConsistent(Initial, moves);
  }

  /** A click places at most one mark, so a run of clicks adds at most as
      many marks as it has clicks. */
  lemma {:induction false} MarksGrowByClicks(s: State, moves: seq<Index>)
    ensures var r := Play(s, moves);
      Count(r.board, Some(X)) + Count(r.board, Some(O))
      <= Count(s.board, Some(X)) + Count(s.board, Some(O)) + |moves|
    decreases |moves|
  {
    if moves != [] {
      var i := moves[0];
      if Accepts(s, i) {
        var mv := MarkOf(s.player);
        assert HandleMove(s, i).board == s.board[i := Some(mv)];
        CountUpdate(s.board, i, Some(mv), Some(X));
        CountUpdate(s.board, i, Some(mv), Some(O));
      }
      MarksGrowByClicks(HandleMove(s, i), moves[1..]);
    }
  }

  /** Nobody can win within the first four clicks of a round, whether it is
      the first round or one started by a reset: X, who is never behind O,
      would need three of at most four marks placed. */
  lemma NoWinBeforeFifthClick(s: State, moves: seq<Index>)
    requires |moves| <= 4
    ensures Play(Initial, moves).winner == None
    ensures CheckWinner(Play(Initial, moves).board) == None
    ensures Play(Reset(s), moves).winner == None
    ensures CheckWinner(Play(Reset(s), moves).board) == None
  {
    ReachableIsConsistent(s, moves);
    assert Some(X) !in EmptyBoard && Some(O) !in EmptyBoard;
    MarksGrowByClicks(Initial, moves);
    FewMarksNoWinner(Play(Initial, moves).board);
    assert Reset(s).board == EmptyBoard;
    MarksGrowByClicks(Reset(s), moves);
    FewMarksNoWinner(Play(Reset(s), moves).board);
  }

  /** On a reachable board the scan order does not matter: the detector
      reports a mark exactly when that mark owns a line. This reads the fact
      off `Consistent`; the work that shows every click keeps it is in
      `MoveKeepsWinner`, which rules out a board where both marks own a line. */
  lemma ScanOrderIrrelevant(s: State, m: Mark)
    requires Consistent(s)
    ensures CheckWinner(s.board) == Some(m) <==> HasLine(s.board, m)
  {
  }

  /** A winning move is always won by the player who made it, and it is that
      player's score that goes up. */
  lemma WinnerIsMover(s: State, i: Index)
    requires Consistent(s) && Accepts(s, i)
    requires HandleMove(s, i).winner.Some?
    ensures HandleMove(s, i).winner == Some(MarkOf(s.player))
    ensures s.player == Player1 ==>
      HandleMove(s, i).scores == Scores(s.scores.player1 + 1, s.scores.player2)
    ensures s.player == Player2 ==>
      HandleMove(s, i).scores == Scores(s.scores.player1, s.scores.player2 + 1)
  {
    OnlyMoverCanWin(s, i);
  }

  /** Once a round is won or the board is full, clicks change nothing. */
  lemma {:induction false} TerminalIsFixed(s: State, moves: seq<Index>)
    requires s.winner.Some? || None !in s.board
    ensures Play(s, moves) == s
    decreases |moves|
  {
    if moves != [] {
      assert s.board[moves[0]] in s.board;
      TerminalIsFixed(HandleMove(s, moves[0]), moves[1..]);
    }
  }

  /** Over a round, the scores grow by one if the round ends in a win and
      stay put otherwise. */
  lemma {:induction false} OneScorePerRound(s: State, moves: seq<Index>)
    requires s.winner.None?
    ensures var r := Play(s, moves);
      Total(r.scores) == Total(s.scores) + (if r.winner.Some? then 1 else 0)
    decreases |moves|
  {
    if moves != [] {
      var t := HandleMove(s, moves[0]);
      if t.winner.Some? {
        TerminalIsFixed(t, moves[1..]);
      } else {
        OneScorePerRound(t, moves[1..]);
      }
    }
  }

  /** A drawn board holds five X and four O, and because the turn still
      passes on the move that fills the board, player 2 is to move. */
  lemma DrawShape(s: State)
    requires Consistent(s) && IsDraw(s)
    ensures Count(s.board, Some(X)) == 5 && Count(s.board, Some(O)) == 4
    ensures s.player == Player2
  {
    CountPartition(s.board);
  }
}
