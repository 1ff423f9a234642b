/** The game state machine: the board, whose turn it is, the winner of the
    round and the running scores, with the two handlers that change them. */
module Game {
  import opened Wrappers
  import opened Board

  datatype Player = Player1 | Player2

  /** Player 1 plays X, player 2 plays O. */
  function MarkOf(p: Player): (m: Mark)
    ensures m == X <==> p == Player1
  {
    if p == Player1 then X else O
  }

  /** The player whose turn follows `p`'s. */
  function Next(p: Player): (q: Player)
    ensures q != p
  {
    if p == Player1 then Player2 else Player1
  }

  /** The mark of the opponent. */
  function Other(m: Mark): (m': Mark)
    ensures m' != m
  {
    if m == X then O else X
  }

  /** Rounds won so far by each player; kept across resets. */
  datatype Scores = Scores(player1: nat, player2: nat)

  function Total(sc: Scores): nat
  {
    sc.player1 + sc.player2
  }

  /** Credit one round to the player who plays mark `m`. */
  function RecordWin(sc: Scores, m: Mark): (r: Scores)
    ensures Total(r) == Total(sc) + 1
    ensures m == X ==> r.player2 == sc.player2
    ensures m == O ==> r.player1 == sc.player1
  {
    if m == X then sc.(player1 := sc.player1 + 1) else sc.(player2 := sc.player2 + 1)
  }

  datatype State = State(board: Board, player: Player, winner: Option<Mark>, scores: Scores)

  /** The state when the game is first shown. */
  const Initial: State := State(EmptyBoard, Player1, None, Scores(0, 0))

  /** A move on cell `i` is taken into account: the cell is empty and nobody
      has won yet. */
  predicate Accepts(s: State, i: Index)
  {
    s.board[i].None? && s.winner.None?
  }

  /** The current player clicks cell `i`. */
  function HandleMove(s: State, i: Index): (r: State)
    // a rejected move changes nothing, and an accepted one always changes the board
    ensures r == s <==> !Accepts(s, i)
    ensures r.board != s.board <==> Accepts(s, i)
    // the mover's mark lands on cell `i` and on no other cell
    ensures Accepts(s, i) ==> r.board[i] == Some(MarkOf(s.player))
    ensures forall j: Index :: j != i ==> r.board[j] == s.board[j]
    // the winner, if any, is the one the detector finds on the new board
    ensures Accepts(s, i) ==> r.winner == CheckWinner(r.board)
    // a winning move credits exactly one round to that mark and keeps the turn
    ensures Accepts(s, i) && r.winner.Some? ==>
      r.player == s.player && Total(r.scores) == Total(s.scores) + 1 &&
      (r.winner == Some(X) ==> r.scores.player1 == s.scores.player1 + 1) &&
      (r.winner == Some(O) ==> r.scores.player2 == s.scores.player2 + 1)
    // any other accepted move, the board-filling one included, passes the turn
    ensures Accepts(s, i) && r.winner.None? ==> r.player != s.player && r.scores == s.scores
  {
    if s.board[i].Some? || s.winner.Some? then s
    else
      var board := s.board[i := Some(MarkOf(s.player))];
      var winner := CheckWinner(board);
      if winner.Some? then
        s.(board := board, winner := winner, scores := RecordWin(s.scores, winner.value))
      else
        s.(board := board, player := Next(s.player))
  }

  /** The reset button: a fresh round, with the scores kept. */
  function Reset(s: State): (r: State)
    ensures forall i: Index :: r.board[i] == None
    ensures r.player == Player1 && r.winner == None && r.scores == s.scores
    ensures CheckWinner(r.board) == None
    ensures !IsDraw(r)
  {
    EmptyBoardHasNoWinner();
    State(EmptyBoard, Player1, None, s.scores)
  }

  /** The round is a draw when nobody has won and no cell is empty. It is
      not stored: the game derives it from the state each time it is shown. */
  predicate IsDraw(s: State)
  {
    s.winner.None? && None !in s.board
  }

  datatype Status = InProgress | Won(mark: Mark) | Draw

  /** The state of the round as shown to the players. */
  function StatusOf(s: State): (st: Status)
    ensures st == Draw <==> IsDraw(s)
    ensures st.Won? <==> s.winner.Some?
    ensures st.Won? ==> s.winner == Some(st.mark)
    ensures st == InProgress <==> exists i: Index :: Accepts(s, i)
  {
    if s.winner.Some? then Won(s.winner.value)
    else if None !in s.board then Draw
    else
      assert forall i: Index :: Accepts(s, i) <==> s.board[i] == None;
      InProgress
  }
}
