/** The first, two-player 3×3 screen: X always opens, the players alternate,
    and the verdict is read from a fixed table of the eight lines. */
module Original {
  import opened Board
  import opened Lines
  import opened Evaluator

  /** The eight lines of the 3×3 grid as the first screen lists them:
      rows, columns, then the two diagonals. */
  const ORIGINAL_LINES: seq<Line> := [
    Line(0, 1, 2), Line(3, 4, 5), Line(6, 7, 8),
    Line(0, 3, 6), Line(1, 4, 7), Line(2, 5, 8),
    Line(0, 4, 8), Line(2, 4, 6)
  ]

  /** On a grid with a single start offset per axis, each inner pass
      pushes one line, so the passes 0 .. o - 1 give one line each. */
  lemma {:induction false} SinglePasses(n: nat, d: Dir, o: nat)
    requires Span(n) == 1
    ensures Flatten(Passes(n, d, o)) == seq(o, p requires 0 <= p < o => MakeLine(n, d, p, 0))
  {
    if o == 0 {
      assert Passes(n, d, 0) == [];
    } else {
      SinglePasses(n, d, o - 1);
      PassesStep(n, d, o - 1);
      assert Row(n, d, o - 1, Span(n)) == [MakeLine(n, d, o - 1, 0)];
      assert seq(o, p requires 0 <= p < o => MakeLine(n, d, p, 0))
          == seq(o - 1, p requires 0 <= p < o - 1 => MakeLine(n, d, p, 0)) + [MakeLine(n, d, o - 1, 0)];
    }
  }

  /** The fixed table is exactly the generated line list of a 3×3 grid, in
      the same order, so the first screen and the configurable screens give
      every 3×3 board the same verdict. */
  lemma OriginalLinesAreGridLines()
    ensures ORIGINAL_LINES == AllLines(3)
  {
    SinglePasses(3, Horizontal, 3);
    SinglePasses(3, Vertical, 3);
    SinglePasses(3, DiagDown, 1);
    SinglePasses(3, DiagUp, 1);
    assert DirLines(3, Horizontal) == [Line(0, 1, 2), Line(3, 4, 5), Line(6, 7, 8)];
    assert DirLines(3, Vertical) == [Line(0, 3, 6), Line(1, 4, 7), Line(2, 5, 8)];
    assert DirLines(3, DiagDown) == [Line(0, 4, 8)];
    assert DirLines(3, DiagUp) == [Line(2, 4, 6)];
  }

  /** The first screen's evaluator: the fixed table scanned in order. */
  method OriginalCalculateWinner(squares: Board) returns (v: Option<Outcome>)
    ensures v == Verdict(squares, 3)
  {
    v := ScanLines(squares, ORIGINAL_LINES);
    OriginalLinesAreGridLines();
  }

  /** The mark of the player to move. */
  function Mark(xIsNext: bool): Symbol
  {
    if xIsNext then 'X' else 'O'
  }

  /** A cell of the first screen: empty, X or O. */
  predicate MarkCell(c: Option<Symbol>)
  {
    c == None || c == Some('X') || c == Some('O')
  }

  /** A round of the first screen: the board, whether X moves next, and the
      verdict the board effect stored. */
  datatype Round = Round(board: Board, xIsNext: bool, verdict: Option<Outcome>)

  /** The empty 3×3 board with X to move and no verdict. */
  function StartRound(): Round
  {
    Round(EmptyBoard(9), true, None)
  }

  /** A tap on cell `i` followed by the board effect: an occupied cell or a
      decided game changes nothing; otherwise the mover's mark is written,
      the turn flips (on a winning move too) and the verdict is recomputed. */
  function NextRound(r: Round, i: nat): (q: Round)
    requires i < |r.board|
    ensures |q.board| == |r.board|
    ensures q.board[i] == r.board[i] || q.board[i] == Some(Mark(r.xIsNext))
    ensures r.verdict.None? ==> q.board[i].Some?
    ensures forall j :: 0 <= j < |r.board| && j != i ==> q.board[j] == r.board[j]
    ensures r.verdict.Some? ==> q == r
    ensures r.board[i].Some? ==> q == r
  {
    if r.verdict.Some? || r.board[i].Some? then r
    else
      var board := r.board[i := Some(Mark(r.xIsNext))];
      Round(board, !r.xIsNext, Verdict(board, 3))
  }

  /** A consistent round: nine X/O/empty cells; X has made as many moves as
      O, or one more exactly when O is to move; the stored verdict is the
      board's; and a winner is always the player who moved last. */
  ghost predicate RoundValid(r: Round)
  {
    && |r.board| == 9
    && (forall k :: 0 <= k < 9 ==> MarkCell(r.board[k]))
    && Count(r.board, 'X') == Count(r.board, 'O') + (if r.xIsNext then 0 else 1)
    && r.verdict == Verdict(r.board, 3)
    && (r.verdict.Some? && r.verdict.value.Winner? ==> r.verdict.value.winner == Mark(!r.xIsNext))
  }

  // ---------------------------------------------------------------------
  // Properties of a round.

  /** A new round is consistent. */
  lemma StartRoundValid()
    ensures RoundValid(StartRound())
  {
    EmptyBoardCounts(9, 'X');
    EmptyBoardCounts(9, 'O');
    EmptyBoardGoesOn(3);
  }

  /** A tap keeps the round consistent: the marks stay balanced and a new
      winner is the player who just moved. */
  lemma NextRoundValid(r: Round, i: nat)
    requires RoundValid(r) && i < |r.board|
    ensures RoundValid(NextRound(r, i))
  {
    if r.verdict.None? && r.board[i].None? {
      var board := r.board[i := Some(Mark(r.xIsNext))];
      CountUpdate(r.board, i, 'X', Mark(r.xIsNext));
      CountUpdate(r.board, i, 'O', Mark(r.xIsNext));
      EvaluateSpec(r.board, AllLines(3));
      NewWinnerIsMover(r.board, AllLines(3), i, Mark(r.xIsNext));
      assert forall k :: 0 <= k < 9 ==> MarkCell(board[k]);
    }
  }

  /** The winner of a round is X exactly when O is to move. */
  lemma WinnerIsLastMover(r: Round)
    requires RoundValid(r) && r.verdict.Some? && r.verdict.value.Winner?
    ensures r.verdict.value.winner == 'X' <==> !r.xIsNext
    ensures r.verdict.value.winner == 'O' <==> r.xIsNext
  {
  }

  /** In a consistent round X moves next exactly when both players have
      made as many moves, and X is never behind O nor more than one ahead. */
  lemma MarksBalanced(r: Round)
    requires RoundValid(r)
    ensures r.xIsNext <==> Count(r.board, 'X') == Count(r.board, 'O')
    ensures Count(r.board, 'O') <= Count(r.board, 'X') <= Count(r.board, 'O') + 1
  {
  }

  /** A tap on an empty cell of an undecided round writes the mover's mark
      there, changes no other cell and hands the turn to the other player. */
  lemma NextRoundWritesMark(r: Round, i: nat)
    requires i < |r.board| && r.board[i].None? && r.verdict.None?
    ensures NextRound(r, i).board[i] == Some(if r.xIsNext then 'X' else 'O')
    ensures forall j :: 0 <= j < |r.board| && j != i ==> NextRound(r, i).board[j] == r.board[j]
    ensures |NextRound(r, i).board| == |r.board|
    ensures NextRound(r, i).xIsNext == !r.xIsNext
  {
  }

  /** X opens every round: the first tap on a new round writes an X. */
  lemma XOpens(i: nat)
    requires i < 9
    ensures NextRound(StartRound(), i).board == EmptyBoard(9)[i := Some('X')]
    ensures !NextRound(StartRound(), i).xIsNext
  {
    EmptyBoardGoesOn(3);
  }

  /** Three X's along the top row win for X on that line. */
  lemma TopRowWins()
    ensures Evaluate([Some('X'), Some('X'), Some('X'), Some('O'), Some('O'), None, None, None, None], ORIGINAL_LINES)
      == Some(Winner('X', Line(0, 1, 2)))
  {
    var b := [Some('X'), Some('X'), Some('X'), Some('O'), Some('O'), None, None, None, None];
    EvaluateFirstMatch(b, ORIGINAL_LINES, 0);
  }

  class Game {
    var board: Board
    var xIsNext: bool
    var winnerInfo: Option<Outcome>

    /** The round in progress as a value. */
    function Current(): Round
      reads this
    {
      Round(board, xIsNext, winnerInfo)
    }

    ghost predicate Valid()
      reads this
    {
      RoundValid(Current())
    }

    /** The empty board with X to move; the board effect on mount finds no
        verdict. */
    constructor ()
      ensures Valid()
      ensures Current() == StartRound()
    {
      var info := OriginalCalculateWinner(EmptyBoard(9));
      EmptyBoardGoesOn(3);
      StartRoundValid();
      board, xIsNext, winnerInfo := EmptyBoard(9), true, info;
    }

    /** A tap on cell `i`, with the board effect that stores the verdict of
        the new board. */
    method HandleMove(i: nat)
      requires Valid() && i < |board|
      modifies this
      ensures Valid()
      ensures Current() == NextRound(old(Current()), i)
    {
      NextRoundValid(Current(), i);
      if winnerInfo.Some? || board[i].Some? {
        return;
      }
      var newBoard := board[i := Some(if xIsNext then 'X' else 'O')];
      var info := OriginalCalculateWinner(newBoard);
      board, xIsNext, winnerInfo := newBoard, !xIsNext, info;
    }

    /** Back to the empty board with X to move and no verdict. */
    method Restart()
      requires Valid()
      modifies this
      ensures Valid()
      ensures Current() == StartRound()
    {
      StartRoundValid();
      board, xIsNext, winnerInfo := EmptyBoard(9), true, None;
    }
  }
}
