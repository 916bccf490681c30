/** The win/draw evaluator: the first winning line in generation order,
    else a draw on a full board, else no verdict. */
module Evaluator {
  import opened Board
  import opened Lines

  /** The three cells of `l` are occupied by the same symbol. */
  predicate Wins(board: Board, l: Line)
  {
    At(board, l.a).Some? && At(board, l.a) == At(board, l.b) && At(board, l.a) == At(board, l.c)
  }

  /** Position of the first winning line of `lines`, or |lines| if none wins. */
  function FirstWinIndex(board: Board, lines: seq<Line>): (k: nat)
    ensures k <= |lines|
    ensures k < |lines| ==> Wins(board, lines[k])
    ensures forall j :: 0 <= j < k ==> !Wins(board, lines[j])
  {
    if lines == [] then 0
    else if Wins(board, lines[0]) then 0
    else 1 + FirstWinIndex(board, lines[1..])
  }

  /** The verdict of scanning `lines` over `board`. */
  function Evaluate(board: Board, lines: seq<Line>): Option<Outcome>
  {
    var k := FirstWinIndex(board, lines);
    if k < |lines| then Some(Winner(At(board, lines[k].a).value, lines[k]))
    else if Full(board) then Some(Draw)
    else None
  }

  /** The verdict for an N×N grid. */
  function Verdict(board: Board, n: nat): Option<Outcome>
  {
    Evaluate(board, AllLines(n))
  }

  // ---------------------------------------------------------------------
  // The evaluator as the source runs it: a scan with early return.

  /** Scans `lines` in order and returns at the first winning one; then
      checks for a full board. */
  method ScanLines(board: Board, lines: seq<Line>) returns (v: Option<Outcome>)
    ensures v == Evaluate(board, lines)
  {
    var i := 0;
    while i < |lines|
      invariant 0 <= i <= |lines|
      invariant forall j :: 0 <= j < i ==> !Wins(board, lines[j])
    {
      var l := lines[i];
      if Wins(board, l) {
        return Some(Winner(At(board, l.a).value, l));
      }
      i := i + 1;
    }
    if Full(board) {
      v := Some(Draw);
    } else {
      v := None;
    }
  }

  /** Generates the lines of the grid, then evaluates the board against them. */
  method CalculateWinner(squares: Board, gridSize: nat) returns (v: Option<Outcome>)
    ensures v == Verdict(squares, gridSize)
  {
    var lines := GenerateLines(gridSize);
    v := ScanLines(squares, lines);
  }

  // ---------------------------------------------------------------------
  // Properties of the verdict.

  /** A winner verdict names a winning line of the list and its symbol; there
      is a winner exactly when some line wins; a draw exactly when no line
      wins and the board is full; no verdict exactly when no line wins and
      some cell is empty. */
  lemma EvaluateSpec(board: Board, lines: seq<Line>)
    ensures var v := Evaluate(board, lines);
      v.Some? && v.value.Winner? ==>
        v.value.line in lines && Wins(board, v.value.line) && At(board, v.value.line.a) == Some(v.value.winner)
    ensures var v := Evaluate(board, lines);
      (v.Some? && v.value.Winner?) <==> exists l :: l in lines && Wins(board, l)
    ensures var v := Evaluate(board, lines);
      v == Some(Draw) <==> (forall l :: l in lines ==> !Wins(board, l)) && Full(board)
    ensures var v := Evaluate(board, lines);
      v == None <==> (forall l :: l in lines ==> !Wins(board, l)) && !Full(board)
  {
    var k := FirstWinIndex(board, lines);
    if k < |lines| {
      assert lines[k] in lines;
    } else {
      forall l | l in lines
        ensures !Wins(board, l)
      {
        var j :| 0 <= j < |lines| && lines[j] == l;
      }
    }
  }

  /** A winner verdict names the first winning line, in order, and that
      line's symbol. */
  lemma EvaluateFirstMatch(board: Board, lines: seq<Line>, k: nat)
    requires k < |lines| && Wins(board, lines[k])
    requires forall j :: 0 <= j < k ==> !Wins(board, lines[j])
    ensures Evaluate(board, lines) == Some(Winner(At(board, lines[k].a).value, lines[k]))
  {
    var f := FirstWinIndex(board, lines);
    assert f <= k;
    assert f >= k;
  }

  /** No verdict is reached on an empty board of a grid that has cells. */
  lemma EmptyBoardGoesOn(n: nat)
    requires n > 0
    ensures Verdict(EmptyBoard(n * n), n) == None
  {
    var b := EmptyBoard(n * n);
    assert b[0] == None;
    assert !Full(b);
  }

  /** Placing `s` on an empty cell of a board with no winning line can only
      produce a win for `s`, along a line through that cell. */
  lemma NewWinnerIsMover(board: Board, lines: seq<Line>, i: nat, s: Symbol)
    requires i < |board| && board[i].None?
    requires forall l :: l in lines ==> !Wins(board, l)
    ensures var v := Evaluate(board[i := Some(s)], lines);
      v.Some? && v.value.Winner? ==>
        v.value.winner == s && i in {v.value.line.a, v.value.line.b, v.value.line.c}
  {
    var nb := board[i := Some(s)];
    var v := Evaluate(nb, lines);
    if v.Some? && v.value.Winner? {
      var l := v.value.line;
      assert i !in {l.a, l.b, l.c} ==> Wins(board, l);
    }
  }
}
