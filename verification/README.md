# Tic-tac-toe game logic in Dafny

This project models the game logic of a single-page tic-tac-toe game. Two
local players take turns on a 3x3 board; player 1 plays X and player 2 plays
O. The game keeps a running score across rounds and has a reset button. All
of that logic sits in the `Game` component (`src/Game.jsx`):

- `checkWinner` scans eight fixed lines of three cells in a fixed order: rows,
  then columns, then diagonals. It returns the mark of the first line whose
  cells are non-empty and equal, or `null` when there is none.
- `handleMove(index)` ignores a click on an occupied cell and any click once a
  winner is set. Otherwise it writes the current player's mark. Then it either
  records the winner and adds one to that player's score, or passes the turn.
- `resetGame` clears the board, the winner and the turn, and keeps the scores.
- A draw is never stored. The component shows it when there is no winner and
  no empty cell.

The state is an immutable record: `State(board, player, winner, scores)`. The
board is a sequence of nine `Option<Mark>` cells. Each handler is one pure
function from state to state.

Files and modules:

- `wrappers.dfy` (`Wrappers`): the `Option` type, standing for `null`.
- `board.dfy` (`Board`): marks, the board, the eight lines, the detector
  (`Scan`, `CheckWinner`) and the cell counts.
- `game.dfy` (`Game`): players, scores, `HandleMove`, `Reset`, and the derived
  draw and status.
- `invariants.dfy` (`Invariants`): `Play`, which applies a sequence of clicks,
  and the invariants that hold in every state reachable from the initial
  state or a reset.
- `scenarios.dfy` (`Scenarios`): three concrete rounds and a repeated click, proved click by click.

Two behaviours of the code are worth stating plainly:

- A draw is not a stored status. The move that fills the board without a win
  still passes the turn (`src/Game.jsx:56-58`), so a drawn round leaves
  player 2 to move (`Invariants.DrawShape`, `Scenarios.FullBoardDraw`). The
  draw is derived each time it is shown (`Game.IsDraw`, `Game.StatusOf`).
  Clicks after a draw are ignored because every cell is occupied.
- `handleMove` does not check the range of `index`. Its only callers are the
  nine cell buttons, which pass 0..8 (`src/Game.jsx:175-178`). The model gives
  the index the type `Board.Index` (0..8), which acts as a precondition.

## Model

| member | source | states |
|---|---|---|
| Board.Scan | src/Game.jsx:29-35 | The scan from line k returns nothing exactly when no line from k on is complete. When it returns a mark, some line from k on is complete with that mark and no line scanned before it is complete. |
| Board.CheckWinner | src/Game.jsx:22-36 | The result is null exactly when no line is complete with either mark. A reported mark is that of the first complete line in row, column, diagonal order. |
| Board.WinnerHasLine | src/Game.jsx:29-35 | A reported mark owns a line. If any mark owns a line, some mark is reported. |
| Board.NoWinnerIffNoLine | src/Game.jsx:22-35 | The detector returns null if and only if neither X nor O owns a line. |
| Board.FirstLineDecides | src/Game.jsx:23-34 | When several lines are complete, the first one in scan order decides the result. |
| Board.EmptyBoardHasNoWinner | src/Game.jsx:17 | The empty board of a new round has no winner. |
| Board.Count | src/Game.jsx:41-42 | The number of cells holding a given value, used for the X and O counts that each placement changes by one. It is at most the board size, and zero exactly when the value does not occur on the board. |
| Board.LineNeedsThree | src/Game.jsx:29-35 | A complete line puts at least three of its mark on the board, because its three cells are distinct. |
| Board.FewMarksNoWinner | src/Game.jsx:29-35 | A board with at most two X and at most two O has no winner: no mark can own a line before its third placement. |
| Board.CountPartition | src/Game.jsx:197 | Every cell is empty, an X or an O: the three counts add up to the board size. |
| Game.MarkOf | src/Game.jsx:42 | The mark is X exactly for player 1. |
| Game.Next | src/Game.jsx:57 | The turn always passes to the other player. |
| Game.RecordWin | src/Game.jsx:52-55 | A win adds exactly one to the total score. A win by X leaves player 2's score alone, and a win by O leaves player 1's score alone. |
| Game.HandleMove | src/Game.jsx:38-59 | The state is unchanged exactly when the guard `Game.Accepts` fails, that is, when the cell is occupied or a winner is set (line 39). An accepted move writes the mover's mark on cell i and nowhere else. The stored winner is then what the detector finds on the new board. A win keeps the turn and credits one round to the winning mark's player. Any other accepted move, including the one that fills the board, passes the turn and keeps the scores. |
| Game.Reset | src/Game.jsx:61-66 | All nine cells are empty, player 1 is to move, no winner is set and the scores are kept. The new board has no winner and is not a draw. |
| Game.StatusOf | src/Game.jsx:192-201 | The status is a draw exactly when `Game.IsDraw` holds, that is, when there is no winner and no empty cell (line 197). It is a win exactly when a winner is set. It is in progress exactly when `Game.Accepts` holds for some cell. |
| Invariants.PlayAppend | src/Game.jsx:38-59 | Playing one run of clicks and then another ends where playing the joined run ends. |
| Invariants.ResetConsistent | src/Game.jsx:61-66 | A reset state satisfies the invariant: counts balanced, turn agrees with counts, stored winner agrees with the board. |
| Invariants.InitialConsistent | src/Game.jsx:16-19 | The initial state satisfies the invariant. |
| Invariants.OtherMarkGainsNoLine | src/Game.jsx:41-42 | Writing one mark into a cell cannot complete a line of the other mark. |
| Invariants.OnlyMoverCanWin | src/Game.jsx:41-50 | After an accepted move from a consistent state, the opponent owns no line. If the detector reports a mark, it is the mover's. |
| Invariants.MoveKeepsCounts | src/Game.jsx:41-58 | After an accepted move, X still equals O or leads by one. While no winner is set, it is player 1's turn exactly when the counts are equal. |
| Invariants.MoveKeepsWinner | src/Game.jsx:49-55 | After an accepted move, the stored winner is the detector's result and the only mark that owns a line. |
| Invariants.MovePreservesConsistent | src/Game.jsx:38-59 | Any click, accepted or ignored, keeps a consistent state consistent. |
| Invariants.PlayPreservesConsistent | src/Game.jsx:38-59 | Any sequence of clicks keeps a consistent state consistent. |
| Invariants.ReachableIsConsistent | src/Game.jsx:16-19 | Every state reached by clicks from the initial state, or from a reset, is consistent. |
| Invariants.MarksGrowByClicks | src/Game.jsx:39-42 | Each click writes at most one mark, so a run of clicks adds at most as many marks as it has clicks. |
| Invariants.NoWinBeforeFifthClick | src/Game.jsx:38-59 | No run of four clicks or fewer from the initial state, or from any reset, yields a winner: neither the stored winner nor the detector reports one. |
| Invariants.ScanOrderIrrelevant | src/Game.jsx:29-35 | On a consistent board, the detector reports a mark exactly when that mark owns a line. So the scan order does not change the result. |
| Invariants.WinnerIsMover | src/Game.jsx:49-55 | A winning move from a consistent state is won by the mover. Only the mover's score goes up by one. |
| Invariants.TerminalIsFixed | src/Game.jsx:39 | Once a winner is set or the board is full, every further sequence of clicks leaves the state unchanged. |
| Invariants.OneScorePerRound | src/Game.jsx:50-55 | Over the clicks of an open round, the total score grows by one if the round ends in a win and stays the same otherwise. |
| Invariants.DrawShape | src/Game.jsx:56-58 | A consistent drawn board holds five X and four O. Player 2 is to move, because the filling move still passed the turn. |
| Scenarios.PlayThrough | src/Game.jsx:38-59 | If each click takes one listed state to the next, playing all the clicks from the first state ends in the last one. |
| Scenarios.QuietMove | src/Game.jsx:41-58 | An accepted click that completes no line writes the mark, passes the turn and keeps the scores. |
| Scenarios.TopRowWin | src/Game.jsx:38-59 | Clicks 0, 3, 1, 4, 2 from the start end in a win for X, with the top row (line 0 of the scan) complete in X, and a score of 1 to 0. |
| Scenarios.LeftColumnWin | src/Game.jsx:38-59 | Clicks 0, 1, 3, 4, 6 end in a win for X, with the left column (line 3 of the scan) complete in X, and a score of 1 to 0. |
| Scenarios.FullBoardDraw | src/Game.jsx:197 | Clicks 0, 1, 2, 4, 3, 5, 7, 6, 8 end in a draw. The scores stay 0 to 0 and player 2 is to move. |
| Scenarios.RepeatedClickIgnored | src/Game.jsx:39 | A second click on cell 0 changes nothing. The cell keeps X and it is still player 2's turn. |

## Left out

- Rotation angles (`src/Game.jsx:20`, `45-47`, `65`): animation state only. They have no effect on the game.
- Rendering: `Button`, `renderSymbol`, the JSX tree, the CSS keyframes and the icons (`src/Game.jsx:2-13`, `68-205`). They are presentation only. The status text at lines 192-201 is modelled only as the derived `Game.StatusOf`.
- React state hooks and batched setter updates (`src/Game.jsx:16-20`, `52-55`). Each handler is modelled as one atomic, pure state transition. The functional score update reads the same scores that the handler saw.
- The `disabled` attribute of the cell buttons (`src/Game.jsx:185`). It duplicates the guard of `handleMove` at line 39, which the model does include.
- Cell indices outside 0..8. `handleMove` never receives them, because the buttons pass only 0..8. The model has no behaviour for such indices.
- Player and mark values other than 1/2 and `'X'`/`'O'`. The source never produces them, and the model's closed enumerations rule them out.
- Game.RecordWin: counts with unbounded naturals. The source keeps scores in JavaScript numbers, which stop counting exactly above 2^53 wins; no real session gets near that.
