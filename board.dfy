/** Shared vocabulary of the engine: cells, boards, lines and verdicts. */
module Board {

  datatype Option<+T> = None | Some(value: T)

  /** A player's glyph ('X', 'O', '□', '△'); one per player, unique in a game. */
  type Symbol = char

  /** Cell `i` is row `i / N`, column `i % N` of an N×N grid; `None` is an empty cell. */
  type Board = seq<Option<Symbol>>

  /** A candidate three-in-a-row: three board indices. */
  datatype Line = Line(a: int, b: int, c: int)

  /** A terminal verdict; "game goes on" is `None` around it. */
  datatype Outcome = Winner(winner: Symbol, line: Line) | Draw

  /** Reading a cell; an index outside the board reads as empty, as an
      undefined array element is falsy. */
  function At(board: Board, i: int): (cell: Option<Symbol>)
    ensures cell.Some? ==> 0 <= i < |board| && cell == board[i]
    ensures 0 <= i < |board| ==> cell == board[i]
  {
    if 0 <= i < |board| then board[i] else None
  }

  /** Every cell is occupied. */
  predicate Full(board: Board)
  {
    forall i :: 0 <= i < |board| ==> board[i].Some?
  }

  /** A board of `size` empty cells. */
  function EmptyBoard(size: nat): (board: Board)
    ensures |board| == size
    ensures forall i :: 0 <= i < size ==> board[i] == None
  {
    seq(size, _ => None)
  }

  /** `v` is a winner verdict naming `s`; a draw names no winner. */
  predicate WinnerIs(v: Option<Outcome>, s: Symbol)
  {
    v.Some? && v.value.Winner? && v.value.winner == s
  }

  /** Number of cells holding `s`. */
  function Count(board: Board, s: Symbol): nat
  {
    if board == [] then 0 else (if board[0] == Some(s) then 1 else 0) + Count(board[1..], s)
  }

  /** Number of occupied cells, that is, moves made. */
  function Filled(board: Board): nat
  {
    if board == [] then 0 else (if board[0].Some? then 1 else 0) + Filled(board[1..])
  }

  /** Writing `t` into an empty cell adds one `t` and leaves the count of
      every other symbol unchanged. */
  lemma {:induction false} CountUpdate(board: Board, i: nat, s: Symbol, t: Symbol)
    requires i < |board| && board[i].None?
    ensures Count(board[i := Some(t)], s) == Count(board, s) + (if s == t then 1 else 0)
  {
    if i == 0 {
      assert board[i := Some(t)][1..] == board[1..];
    } else {
      assert board[i := Some(t)][1..] == board[1..][i - 1 := Some(t)];
      CountUpdate(board[1..], i - 1, s, t);
    }
  }

  /** Writing into an empty cell makes one more move. */
  lemma {:induction false} FilledUpdate(board: Board, i: nat, t: Symbol)
    requires i < |board| && board[i].None?
    ensures Filled(board[i := Some(t)]) == Filled(board) + 1
  {
    if i == 0 {
      assert board[i := Some(t)][1..] == board[1..];
    } else {
      assert board[i := Some(t)][1..] == board[1..][i - 1 := Some(t)];
      FilledUpdate(board[1..], i - 1, t);
    }
  }

  /** An empty board holds no symbol and no move. */
  lemma {:induction false} EmptyBoardCounts(size: nat, s: Symbol)
    ensures Count(EmptyBoard(size), s) == 0 && Filled(EmptyBoard(size)) == 0
  {
    if size > 0 {
      assert EmptyBoard(size)[1..] == EmptyBoard(size - 1);
      EmptyBoardCounts(size - 1, s);
    }
  }

  /** Whose turn it is after `moves` moves among `n` players: the next
      player in rotation, or the last mover once the game is decided. */
  predicate TurnInRotation(moves: nat, n: nat, index: nat, decided: bool)
  {
    n > 0 &&
    if decided then moves > 0 && index == (moves - 1) % n else index == moves % n
  }

  /** The turn index after one more undecided move, for the supported
      player counts. */
  lemma NextTurn(moves: nat, n: nat)
    requires 2 <= n <= 4
    ensures (moves % n + 1) % n == (moves + 1) % n
  {
    var q, r := moves / n, moves % n;
    if r + 1 < n {
      assert moves + 1 == q * n + (r + 1);
      assert (moves + 1) / n == q;
    } else {
      assert moves + 1 == (q + 1) * n;
      assert (moves + 1) / n == q + 1;
    }
  }
}
