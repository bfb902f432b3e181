/**
 * The tic-tac-toe page of src/app/games/tic-tac-toe/page.tsx: the player is X,
 * the computer O. React state is the fields of a class; the 150 ms timer that
 * runs the computer's turn is the `pending` board it captured. Random choices
 * of `findBestMove` are draws passed in.
 */
module TicTacToe {
  import opened Wrappers
  import opened JsValues

  datatype Mark = X | O
  type Cell = Option<Mark>

  /** `checkWinner`'s result: null, the winning mark, or 'Tie'. */
  datatype Outcome = NoResult | Won(mark: Mark) | Tie

  datatype Scores = Scores(player: nat, computer: nat, ties: nat)

  /** The eight lines in the order the source lists them: rows, columns, diagonals. */
  const Lines: seq<(nat, nat, nat)> :=
    [(0, 1, 2), (3, 4, 5), (6, 7, 8), (0, 3, 6), (1, 4, 7), (2, 5, 8), (0, 4, 8), (2, 4, 6)]

  const Corners: seq<nat> := [0, 2, 6, 8]
  const AllCells: seq<nat> := [0, 1, 2, 3, 4, 5, 6, 7, 8]

  predicate IsBoard(b: seq<Cell>) { |b| == 9 }

  /** Line k holds three equal marks. */
  predicate LineFilled(b: seq<Cell>, k: nat)
    requires IsBoard(b) && k < |Lines|
  {
    var (p, q, r) := Lines[k];
    b[p].Some? && b[p] == b[q] && b[p] == b[r]
  }

  predicate Full(b: seq<Cell>)
    requires IsBoard(b)
  {
    forall i :: 0 <= i < 9 ==> b[i].Some?
  }

  /** The first filled line at index `from` or later, in list order. */
  function FirstFilled(b: seq<Cell>, from: nat): (k: Option<nat>)
    requires IsBoard(b) && from <= |Lines|
    ensures k.Some? ==> from <= k.value < |Lines| && LineFilled(b, k.value)
    ensures k.Some? ==> forall j :: from <= j < k.value ==> !LineFilled(b, j)
    ensures k.None? ==> forall j :: from <= j < |Lines| ==> !LineFilled(b, j)
    decreases |Lines| - from
  {
    if from == |Lines| then None
    else if LineFilled(b, from) then Some(from)
    else FirstFilled(b, from + 1)
  }

  /** What `checkWinner` promises: the mark of the first filled line, else Tie on a full board, else null. */
  function Winner(b: seq<Cell>): Outcome
    requires IsBoard(b)
  {
    match FirstFilled(b, 0)
    case Some(k) => Won(b[Lines[k].0].value)
    case None => if Full(b) then Tie else NoResult
  }

  lemma WinnerCharacterised(b: seq<Cell>)
    requires IsBoard(b)
    ensures Winner(b).Won? <==> exists k :: 0 <= k < |Lines| && LineFilled(b, k)
    ensures Winner(b).Won? ==> exists k :: 0 <= k < |Lines| && LineFilled(b, k) && b[Lines[k].0] == Some(Winner(b).mark)
    ensures Winner(b) == Tie <==> (forall k :: 0 <= k < |Lines| ==> !LineFilled(b, k)) && Full(b)
    ensures Winner(b) == NoResult <==> (forall k :: 0 <= k < |Lines| ==> !LineFilled(b, k)) && !Full(b)
  {
  }

  /** `checkWinner(squares)`: the loop over the lines with its early return. */
  method CheckWinner(b: seq<Cell>) returns (r: Outcome)
    requires IsBoard(b)
    ensures r == Winner(b)
  {
    var k := 0;
    while k < |Lines|
      invariant 0 <= k <= |Lines|
      invariant FirstFilled(b, 0) == FirstFilled(b, k)
    {
      var (p, q, s) := Lines[k];
      if b[p].Some? && b[p] == b[q] && b[p] == b[s] {
        return Won(b[p].value);
      }
      k := k + 1;
    }
    if forall i :: 0 <= i < 9 ==> b[i].Some? {
      return Tie;
    }
    return NoResult;
  }

  /** Putting `m` on the empty cell `i` makes `checkWinner` report `m`. */
  predicate WinningCell(b: seq<Cell>, i: nat, m: Mark)
    requires IsBoard(b)
  {
    i < 9 && b[i].None? && Winner(b[i := Some(m)]) == Won(m)
  }

  /** The empty cells among `cells`, in order. */
  function EmptyAmong(b: seq<Cell>, cells: seq<nat>): (r: seq<nat>)
    requires IsBoard(b) && forall k :: 0 <= k < |cells| ==> cells[k] < 9
    ensures forall c :: c in r <==> c in cells && b[c].None?
  {
    if cells == [] then []
    else (if b[cells[0]].None? then [cells[0]] else []) + EmptyAmong(b, cells[1..])
  }

  lemma NoEmptyCellMeansFull(b: seq<Cell>)
    requires IsBoard(b)
    ensures |EmptyAmong(b, AllCells)| == 0 <==> Full(b)
  {
    var r := EmptyAmong(b, AllCells);
    if |r| == 0 {
      forall i | 0 <= i < 9
        ensures b[i].Some?
      {
        assert AllCells[i] == i;
        assert i in AllCells;
      }
    } else {
      assert r[0] in r;
    }
  }

  /** The lowest cell from `i` on where `m` would win, if any. */
  function FirstWin(b: seq<Cell>, m: Mark, i: nat): (cell: Option<nat>)
    requires IsBoard(b) && i <= 9
    ensures cell.Some? ==> i <= cell.value < 9 && WinningCell(b, cell.value, m)
    ensures forall j :: i <= j < (if cell.Some? then cell.value else 9) ==> !WinningCell(b, j, m)
    decreases 9 - i
  {
    if i == 9 then None
    else if WinningCell(b, i, m) then Some(i)
    else FirstWin(b, m, i + 1)
  }

  /** Scan cells 0..8 for the first one where `m` would win. */
  method FirstWinningCell(b: seq<Cell>, m: Mark) returns (cell: Option<nat>)
    requires IsBoard(b)
    ensures cell == FirstWin(b, m, 0)
    ensures cell.Some? ==> WinningCell(b, cell.value, m) && forall j :: 0 <= j < cell.value ==> !WinningCell(b, j, m)
    ensures cell.None? ==> forall j :: 0 <= j < 9 ==> !WinningCell(b, j, m)
  {
    var i := 0;
    while i < 9
      invariant 0 <= i <= 9
      invariant FirstWin(b, m, i) == FirstWin(b, m, 0)
    {
      if b[i].None? {
        var w := CheckWinner(b[i := Some(m)]);
        if w == Won(m) {
          return Some(i);
        }
      }
      i := i + 1;
    }
    return None;
  }

  /** No free cell wins the game for either mark. */
  ghost predicate NoWinningCell(b: seq<Cell>)
    requires IsBoard(b)
  {
    forall i :: !WinningCell(b, i, O) && !WinningCell(b, i, X)
  }

  /**
   * What `findBestMove` answers for board `b` and the two random draws: win
   * if possible, else block, each at the lowest such cell; else the centre;
   * else the free corner the first draw picks; else the free cell the second
   * draw picks; undefined, here None, exactly when the board is full.
   */
  ghost predicate BestMove(b: seq<Cell>, cornerDraw: real, anyDraw: real, move: Option<nat>)
    requires IsBoard(b) && IsDraw(cornerDraw) && IsDraw(anyDraw)
  {
    && (move.Some? ==> move.value < 9 && b[move.value].None?)
    && (move.None? <==> Full(b))
    && ((exists i :: WinningCell(b, i, O)) ==>
          move.Some? && WinningCell(b, move.value, O) && forall j :: 0 <= j < move.value ==> !WinningCell(b, j, O))
    && ((forall i :: !WinningCell(b, i, O)) && (exists i :: WinningCell(b, i, X)) ==>
          move.Some? && WinningCell(b, move.value, X) && forall j :: 0 <= j < move.value ==> !WinningCell(b, j, X))
    && (NoWinningCell(b) && b[4].None? ==> move == Some(4))
    && (var corners := EmptyAmong(b, Corners);
        NoWinningCell(b) && b[4].Some? && |corners| > 0 ==>
          move == Some(corners[RandomIndex(cornerDraw, |corners|)]))
    && (var cells := EmptyAmong(b, AllCells);
        NoWinningCell(b) && b[4].Some? && |EmptyAmong(b, Corners)| == 0 && |cells| > 0 ==>
          move == Some(cells[RandomIndex(anyDraw, |cells|)]))
  }

  /** The priorities leave no choice: for given draws at most one move is the best one. */
  lemma BestMoveIsUnique(b: seq<Cell>, cornerDraw: real, anyDraw: real, m1: Option<nat>, m2: Option<nat>)
    requires IsBoard(b) && IsDraw(cornerDraw) && IsDraw(anyDraw)
    requires BestMove(b, cornerDraw, anyDraw, m1) && BestMove(b, cornerDraw, anyDraw, m2)
    ensures m1 == m2
  {
    if m1.None? || m2.None? {
      assert Full(b);
    } else if exists k :: WinningCell(b, k, O) {
      assert !(m1.value < m2.value) && !(m2.value < m1.value);
    } else if exists k :: WinningCell(b, k, X) {
      assert !(m1.value < m2.value) && !(m2.value < m1.value);
    } else {
      assert NoWinningCell(b);
      if b[4].Some? && |EmptyAmong(b, Corners)| == 0 {
        NoEmptyCellMeansFull(b);
      }
    }
  }

  /** The lowest cell where O wins, or else the lowest where X would win, is the best move. */
  lemma LowestWinIsBest(b: seq<Cell>, cornerDraw: real, anyDraw: real, m: Mark, cell: nat)
    requires IsBoard(b) && IsDraw(cornerDraw) && IsDraw(anyDraw)
    requires WinningCell(b, cell, m) && forall j :: 0 <= j < cell ==> !WinningCell(b, j, m)
    requires m == X ==> forall j :: 0 <= j < 9 ==> !WinningCell(b, j, O)
    ensures BestMove(b, cornerDraw, anyDraw, Some(cell))
  {
  }

  /** With no winning cell for either mark, the free centre is the best move. */
  lemma CentreIsBest(b: seq<Cell>, cornerDraw: real, anyDraw: real)
    requires IsBoard(b) && IsDraw(cornerDraw) && IsDraw(anyDraw)
    requires NoWinningCell(b)
    requires b[4].None?
    ensures BestMove(b, cornerDraw, anyDraw, Some(4))
  {
  }

  /** Otherwise the free corner the first draw picks is the best move. */
  lemma DrawnCornerIsBest(b: seq<Cell>, cornerDraw: real, anyDraw: real)
    requires IsBoard(b) && IsDraw(cornerDraw) && IsDraw(anyDraw)
    requires NoWinningCell(b)
    requires b[4].Some? && |EmptyAmong(b, Corners)| > 0
    ensures var corners := EmptyAmong(b, Corners);
            BestMove(b, cornerDraw, anyDraw, Some(corners[RandomIndex(cornerDraw, |corners|)]))
  {
    var corners := EmptyAmong(b, Corners);
    assert corners[RandomIndex(cornerDraw, |corners|)] in corners;
  }

  /** With every corner taken, the free cell the second draw picks, or none on a full board. */
  lemma DrawnCellIsBest(b: seq<Cell>, cornerDraw: real, anyDraw: real)
    requires IsBoard(b) && IsDraw(cornerDraw) && IsDraw(anyDraw)
    requires NoWinningCell(b)
    requires b[4].Some? && |EmptyAmong(b, Corners)| == 0
    ensures var cells := EmptyAmong(b, AllCells);
            BestMove(b, cornerDraw, anyDraw, if |cells| == 0 then None else Some(cells[RandomIndex(anyDraw, |cells|)]))
  {
    var cells := EmptyAmong(b, AllCells);
    NoEmptyCellMeansFull(b);
    if |cells| > 0 {
      assert cells[RandomIndex(anyDraw, |cells|)] in cells;
    }
  }

  /**
   * The move `findBestMove` makes on board `b` with the two draws of
   * `Math.random()`: the lowest winning cell for O, else the lowest for X,
   * else the centre, else a drawn free corner, else a drawn free cell.
   */
  function BestMoveOf(b: seq<Cell>, cornerDraw: real, anyDraw: real): (move: Option<nat>)
    requires IsBoard(b) && IsDraw(cornerDraw) && IsDraw(anyDraw)
    ensures move.Some? ==> move.value < 9 && b[move.value].None?
    ensures move.None? <==> Full(b)
  {
    var win, block := FirstWin(b, O, 0), FirstWin(b, X, 0);
    var corners, cells := EmptyAmong(b, Corners), EmptyAmong(b, AllCells);
    NoEmptyCellMeansFull(b);
    if win.Some? then win
    else if block.Some? then block
    else if b[4].None? then Some(4)
    else if |corners| > 0 then
      var c := corners[RandomIndex(cornerDraw, |corners|)];
      assert c in corners;
      Some(c)
    else if |cells| > 0 then
      var c := cells[RandomIndex(anyDraw, |cells|)];
      assert c in cells;
      Some(c)
    else None
  }

  /** The move `BestMoveOf` picks follows every priority of `findBestMove`. */
  lemma BestMoveOfIsBest(b: seq<Cell>, cornerDraw: real, anyDraw: real)
    requires IsBoard(b) && IsDraw(cornerDraw) && IsDraw(anyDraw)
    ensures BestMove(b, cornerDraw, anyDraw, BestMoveOf(b, cornerDraw, anyDraw))
  {
    var win, block := FirstWin(b, O, 0), FirstWin(b, X, 0);
    if win.Some? {
      LowestWinIsBest(b, cornerDraw, anyDraw, O, win.value);
    } else if block.Some? {
      LowestWinIsBest(b, cornerDraw, anyDraw, X, block.value);
    } else {
      assert NoWinningCell(b);
      if b[4].None? {
        CentreIsBest(b, cornerDraw, anyDraw);
      } else if |EmptyAmong(b, Corners)| > 0 {
        DrawnCornerIsBest(b, cornerDraw, anyDraw);
      } else {
        DrawnCellIsBest(b, cornerDraw, anyDraw);
      }
    }
  }

  /** The priorities describe exactly the move `findBestMove` makes. */
  lemma {:induction false} BestMoveCharacterised(b: seq<Cell>, cornerDraw: real, anyDraw: real, move: Option<nat>)
    requires IsBoard(b) && IsDraw(cornerDraw) && IsDraw(anyDraw)
    ensures BestMove(b, cornerDraw, anyDraw, move) <==> move == BestMoveOf(b, cornerDraw, anyDraw)
  {
    BestMoveOfIsBest(b, cornerDraw, anyDraw);
    if BestMove(b, cornerDraw, anyDraw, move) {
      BestMoveIsUnique(b, cornerDraw, anyDraw, move, BestMoveOf(b, cornerDraw, anyDraw));
    }
  }

  /** `findBestMove` on a board and the two draws of `Math.random()` it makes. */
  method FindBestMove(b: seq<Cell>, cornerDraw: real, anyDraw: real) returns (move: Option<nat>)
    requires IsBoard(b) && IsDraw(cornerDraw) && IsDraw(anyDraw)
    ensures move == BestMoveOf(b, cornerDraw, anyDraw)
  {
    move := FirstWinningCell(b, O);
    if move.Some? {
      return;
    }
    move := FirstWinningCell(b, X);
    if move.Some? {
      return;
    }
    if b[4].None? {
      return Some(4);
    }
    var availableCorners := EmptyAmong(b, Corners);
    if |availableCorners| > 0 {
      return Some(availableCorners[RandomIndex(cornerDraw, |availableCorners|)]);
    }
    var available := EmptyAmong(b, AllCells);
    if |available| == 0 {
      return None;
    }
    return Some(available[RandomIndex(anyDraw, |available|)]);
  }

  /** `updateScores`: exactly the counter of the result goes up by one. */
  function Scored(s: Scores, result: Outcome): (r: Scores)
    requires result != NoResult
    ensures result == Won(X) ==> r == s.(player := s.player + 1)
    ensures result == Won(O) ==> r == s.(computer := s.computer + 1)
    ensures result == Tie ==> r == s.(ties := s.ties + 1)
  {
    if result == Won(X) then s.(player := s.player + 1)
    else if result == Won(O) then s.(computer := s.computer + 1)
    else s.(ties := s.ties + 1)
  }

  class Game {
    var board: seq<Cell>
    var isPlayerTurn: bool
    var winner: Outcome
    var scores: Scores
    var thinking: bool
    /** The board the scheduled computer turn will use, while its timer is pending. */
    var pending: Option<seq<Cell>>

    ghost predicate Valid()
      reads this
    {
      && IsBoard(board)
      && (pending.Some? ==> pending.value == board && thinking && !isPlayerTurn && winner == NoResult)
    }

    constructor (saved: Scores)
      ensures Valid() && board == seq(9, _ => None) && isPlayerTurn && winner == NoResult
      ensures scores == saved && !thinking && pending.None?
    {
      board := seq(9, _ => None);
      isPlayerTurn := true;
      winner := NoResult;
      scores := saved;
      thinking := false;
      pending := None;
    }

    method UpdateScores(result: Outcome)
      requires result != NoResult
      modifies this
      ensures scores == Scored(old(scores), result)
      ensures board == old(board) && isPlayerTurn == old(isPlayerTurn) && winner == old(winner)
      ensures thinking == old(thinking) && pending == old(pending)
    {
      scores := Scored(scores, result);
    }

    /** `handleClick(index)` on one of the nine buttons. */
    method HandleClick(index: nat)
      requires Valid() && index < 9
      modifies this
      ensures Valid()
      ensures old(board[index].Some? || winner != NoResult || !isPlayerTurn || thinking) ==>
                board == old(board) && winner == old(winner) && scores == old(scores) &&
                isPlayerTurn == old(isPlayerTurn) && thinking == old(thinking) && pending == old(pending)
      ensures !old(board[index].Some? || winner != NoResult || !isPlayerTurn || thinking) ==>
                board == old(board)[index := Some(X)] && winner == Winner(board) &&
                (winner != NoResult ==> scores == Scored(old(scores), winner) && isPlayerTurn && !thinking && pending.None?) &&
                (winner == NoResult ==> scores == old(scores) && !isPlayerTurn && thinking && pending == Some(board))
    {
      if board[index].Some? || winner != NoResult || !isPlayerTurn || thinking {
        return;
      }
      var newBoard := board[index := Some(X)];
      board := newBoard;
      var gameWinner := CheckWinner(newBoard);
      if gameWinner != NoResult {
        winner := gameWinner;
        UpdateScores(gameWinner);
      } else {
        isPlayerTurn := false;
        thinking := true;
        pending := Some(newBoard);
      }
    }

    /** `runComputerTurn`, run by the pending timer on the board it captured. */
    method RunComputerTurn(cornerDraw: real, anyDraw: real)
      requires Valid() && pending.Some?
      requires IsDraw(cornerDraw) && IsDraw(anyDraw)
      modifies this
      ensures Valid() && pending.None? && !thinking
      ensures Full(old(board)) ==>
                board == old(board) && isPlayerTurn && winner == old(winner) && scores == old(scores)
      ensures !Full(old(board)) ==>
                BestMoveOf(old(board), cornerDraw, anyDraw).Some? &&
                board == old(board)[BestMoveOf(old(board), cornerDraw, anyDraw).value := Some(O)] &&
                winner == Winner(board) &&
                (winner != NoResult ==> scores == Scored(old(scores), winner) && !isPlayerTurn) &&
                (winner == NoResult ==> scores == old(scores) && isPlayerTurn)
    {
      var boardAfterPlayerMove := pending.value;
      pending := None;
      var bestMove := FindBestMove(boardAfterPlayerMove, cornerDraw, anyDraw);
      if bestMove.None? || bestMove.value > 8 {
        thinking := false;
        isPlayerTurn := true;
        return;
      }
      var computerBoard := boardAfterPlayerMove[bestMove.value := Some(O)];
      board := computerBoard;
      var computerGameWinner := CheckWinner(computerBoard);
      if computerGameWinner != NoResult {
        winner := computerGameWinner;
        UpdateScores(computerGameWinner);
      } else {
        isPlayerTurn := true;
      }
      thinking := false;
    }

    /** `resetGame`: a fresh board and the player's turn; the scores are kept. */
    method ResetGame()
      modifies this
      ensures Valid()
      ensures board == seq(9, _ => None) && isPlayerTurn && winner == NoResult && !thinking && pending.None?
      ensures scores == old(scores)
    {
      pending := None;
      board := seq(9, _ => None);
      isPlayerTurn := true;
      winner := NoResult;
      thinking := false;
    }
  }
}
