/** One-ply move selection for a computer player: win, block, centre,
    corner or random, depending on the difficulty. */
module AI {
  import opened Board
  import opened Evaluator

  /** The randomness of a choice: an oracle value, reduced to an index into
      the candidate list. Every index can be drawn (see `PickCovers`). */
  type Oracle = nat

  /** The indices of the empty cells, in ascending order. */
  function EmptyCells(board: Board): (r: seq<nat>)
    ensures forall i: nat :: i in r <==> i < |board| && board[i].None?
    ensures forall p, q :: 0 <= p < q < |r| ==> r[p] < r[q]
    ensures |r| <= |board|
  {
    if board == [] then []
    else
      var last := |board| - 1;
      var prefix := EmptyCells(board[..last]);
      assert forall i: nat :: i in prefix <==> i < last && board[i].None?;
      if board[last].None? then
        var r := prefix + [last];
        assert forall p :: 0 <= p < |prefix| ==> r[p] == prefix[p] && prefix[p] in prefix;
        r
      else prefix
  }

  /** Placing `s` on cell `i` is legal and wins the game for `s`. */
  predicate Completes(board: Board, s: Symbol, n: nat, i: nat)
  {
    i < |board| && board[i].None? && WinnerIs(Verdict(board[i := Some(s)], n), s)
  }

  /** The smallest cell at or after `from` where `s` completes a line. */
  function FirstCompleting(board: Board, s: Symbol, n: nat, from: nat): (r: Option<nat>)
    ensures r.Some? ==> from <= r.value && Completes(board, s, n, r.value)
    ensures r.Some? ==> forall j :: from <= j < r.value ==> !Completes(board, s, n, j)
    ensures r.None? ==> forall j :: from <= j ==> !Completes(board, s, n, j)
    decreases |board| - from
  {
    if from >= |board| then None
    else if Completes(board, s, n, from) then Some(from)
    else FirstCompleting(board, s, n, from + 1)
  }

  /** The list of empty cells is empty exactly on a full board. */
  lemma NoEmptyCellIffFull(board: Board)
    ensures |EmptyCells(board)| == 0 <==> Full(board)
  {
    var e := EmptyCells(board);
    if |e| == 0 {
      forall i | 0 <= i < |board|
        ensures board[i].Some?
      {
        assert i !in e;
      }
    } else {
      assert e[0] in e;
    }
  }

  /** The lowest empty index that wins for `s`, if any: it is an empty cell
      where `s` wins and no lower cell does; without one, no empty cell wins. */
  function WinningMove(board: Board, s: Symbol, n: nat): (m: Option<nat>)
    ensures m.Some? ==> Completes(board, s, n, m.value)
    ensures m.Some? ==> forall j :: 0 <= j < m.value ==> !Completes(board, s, n, j)
    ensures m.None? ==> forall i :: !Completes(board, s, n, i)
  {
    FirstCompleting(board, s, n, 0)
  }

  /** Tries every empty cell in ascending order on a copy of the board. */
  method FindWinningMove(board: Board, playerSymbol: Symbol, gridSize: nat) returns (r: Option<nat>)
    ensures r == WinningMove(board, playerSymbol, gridSize)
  {
    var i := 0;
    while i < |board|
      invariant 0 <= i <= |board|
      invariant FirstCompleting(board, playerSymbol, gridSize, i) == WinningMove(board, playerSymbol, gridSize)
    {
      if board[i].None? {
        var testBoard := board[i := Some(playerSymbol)];
        var v := CalculateWinner(testBoard, gridSize);
        if v.Some? && v.value.Winner? && v.value.winner == playerSymbol {
          assert Completes(board, playerSymbol, gridSize, i);
          return Some(i);
        }
      }
      assert !Completes(board, playerSymbol, gridSize, i);
      i := i + 1;
    }
    r := None;
  }

  /** A completing cell with none before it is the winning move. */
  lemma WinningMoveIsFirst(board: Board, s: Symbol, n: nat, i: nat)
    requires Completes(board, s, n, i)
    requires forall j :: 0 <= j < i ==> !Completes(board, s, n, j)
    ensures WinningMove(board, s, n) == Some(i)
  {
    var w := WinningMove(board, s, n);
    assert w.Some?;
    assert w.value <= i;
    assert w.value >= i;
  }

  /** The symbols of all players other than `s`, in roster order. */
  function Opponents(symbols: seq<Symbol>, s: Symbol): (r: seq<Symbol>)
    ensures forall o :: o in r <==> o in symbols && o != s
    ensures |r| <= |symbols|
  {
    if symbols == [] then []
    else if symbols[0] != s then [symbols[0]] + Opponents(symbols[1..], s)
    else Opponents(symbols[1..], s)
  }

  /** Position of the first opponent that has a winning move, or |opps|. */
  function FirstThreat(board: Board, opps: seq<Symbol>, n: nat): (k: nat)
    ensures k <= |opps|
    ensures k < |opps| ==> WinningMove(board, opps[k], n).Some?
    ensures forall j :: 0 <= j < k ==> WinningMove(board, opps[j], n).None?
  {
    if opps == [] then 0
    else if WinningMove(board, opps[0], n).Some? then 0
    else 1 + FirstThreat(board, opps[1..], n)
  }

  /** Without a threat in the list, no listed opponent has a winning move. */
  lemma NoThreat(board: Board, opps: seq<Symbol>, n: nat)
    requires FirstThreat(board, opps, n) == |opps|
    ensures forall o :: o in opps ==> WinningMove(board, o, n).None?
  {
    forall o | o in opps
      ensures WinningMove(board, o, n).None?
    {
      var j :| 0 <= j < |opps| && opps[j] == o;
    }
  }

  /** The cell blocking the first opponent, in roster order, that can win
      next. There is none exactly when no opponent can win next; otherwise it
      is the winning move of an opponent, and so an empty cell. */
  function BlockingMove(board: Board, s: Symbol, symbols: seq<Symbol>, n: nat): (b: Option<nat>)
    ensures b.None? <==> forall o :: o in symbols && o != s ==> WinningMove(board, o, n).None?
    ensures b.Some? ==> exists o :: o in symbols && o != s && WinningMove(board, o, n) == b
    ensures b.Some? ==> b.value < |board| && board[b.value].None?
  {
    var opps := Opponents(symbols, s);
    var k := FirstThreat(board, opps, n);
    if k < |opps| then
      assert opps[k] in opps;
      WinningMove(board, opps[k], n)
    else
      NoThreat(board, opps, n);
      None
  }

  /** When the roster's player at position p is the first opponent, in
      roster order, with a winning move, it is the first threat among the
      opponents. */
  lemma {:induction false} FirstThreatInRoster(board: Board, s: Symbol, symbols: seq<Symbol>, n: nat, p: nat)
    requires p < |symbols| && symbols[p] != s && WinningMove(board, symbols[p], n).Some?
    requires forall q :: 0 <= q < p && symbols[q] != s ==> WinningMove(board, symbols[q], n).None?
    ensures var opps := Opponents(symbols, s);
      FirstThreat(board, opps, n) < |opps| && opps[FirstThreat(board, opps, n)] == symbols[p]
  {
    var opps := Opponents(symbols, s);
    if p == 0 {
      assert opps[0] == symbols[0];
      assert FirstThreat(board, opps, n) == 0;
    } else {
      var rest := Opponents(symbols[1..], s);
      assert symbols[1..][p - 1] == symbols[p];
      FirstThreatInRoster(board, s, symbols[1..], n, p - 1);
      if symbols[0] != s {
        assert opps == [symbols[0]] + rest;
        FirstThreatSkip(board, symbols[0], rest, n);
      }
    }
  }

  /** An opponent without a winning move moves the first threat one place on. */
  lemma FirstThreatSkip(board: Board, o: Symbol, rest: seq<Symbol>, n: nat)
    requires WinningMove(board, o, n).None?
    ensures FirstThreat(board, [o] + rest, n) == 1 + FirstThreat(board, rest, n)
  {
    assert ([o] + rest)[1..] == rest;
  }

  /** The block is the winning move of the first opponent in roster order
      that has one. */
  lemma BlockingMoveFirstInRoster(board: Board, s: Symbol, symbols: seq<Symbol>, n: nat, p: nat)
    requires p < |symbols| && symbols[p] != s && WinningMove(board, symbols[p], n).Some?
    requires forall q :: 0 <= q < p && symbols[q] != s ==> WinningMove(board, symbols[q], n).None?
    ensures BlockingMove(board, s, symbols, n) == WinningMove(board, symbols[p], n)
  {
    FirstThreatInRoster(board, s, symbols, n, p);
  }

  /** For each opponent in order, looks for the cell it would win with. */
  method FindBlockingMove(board: Board, playerSymbol: Symbol, symbols: seq<Symbol>, gridSize: nat)
    returns (r: Option<nat>)
    ensures r == BlockingMove(board, playerSymbol, symbols, gridSize)
  {
    var opponents := Opponents(symbols, playerSymbol);
    var k := 0;
    while k < |opponents|
      invariant 0 <= k <= |opponents|
      invariant k <= FirstThreat(board, opponents, gridSize)
    {
      var m := FindWinningMove(board, opponents[k], gridSize);
      ghost var t := FirstThreat(board, opponents, gridSize);
      if m.Some? {
        assert t == k;
        return m;
      }
      assert t != k;
      k := k + 1;
    }
    r := None;
  }

  /** The members of `cells` that are in `allowed`, in the order of `cells`. */
  function Filter(cells: seq<nat>, allowed: seq<nat>): (r: seq<nat>)
    ensures forall x :: x in r <==> x in cells && x in allowed
  {
    if cells == [] then []
    else if cells[0] in allowed then [cells[0]] + Filter(cells[1..], allowed)
    else Filter(cells[1..], allowed)
  }

  lemma {:induction false} FilterNone(cells: seq<nat>, allowed: seq<nat>)
    requires forall x :: x in cells ==> x !in allowed
    ensures Filter(cells, allowed) == []
  {
    if cells != [] {
      FilterNone(cells[1..], allowed);
    }
  }

  /** The oracle's choice among non-empty candidates. */
  function Pick(candidates: seq<nat>, r: Oracle): (x: nat)
    requires |candidates| > 0
    ensures x in candidates
  {
    candidates[r % |candidates|]
  }

  /** The centre cells: index 4 on 3×3, the middle four otherwise. */
  function Centers(gridSize: nat): seq<nat>
  {
    if gridSize == 3 then [4] else [5, 6, 9, 10]
  }

  /** The corner cells of a 3×3 grid, or of a 4×4 grid otherwise. */
  function Corners(gridSize: nat): seq<nat>
  {
    if gridSize == 3 then [0, 2, 6, 8] else [0, 3, 12, 15]
  }

  /** The move of a computer player with symbol `s`; an unknown difficulty
      plays like "easy". At every difficulty the move is an empty cell, and
      there is none exactly on a full board. */
  function MakeAIMove(board: Board, s: Symbol, difficulty: string, symbols: seq<Symbol>, gridSize: nat, r: Oracle)
    : (m: Option<nat>)
    ensures m.None? <==> Full(board)
    ensures m.Some? ==> m.value < |board| && board[m.value].None?
  {
    NoEmptyCellIffFull(board);
    var emptyCells := EmptyCells(board);
    if |emptyCells| == 0 then None
    else if difficulty == "medium" then
      var winMove := WinningMove(board, s, gridSize);
      if winMove.Some? then winMove
      else
        var blockMove := BlockingMove(board, s, symbols, gridSize);
        if blockMove.Some? then blockMove
        else Some(Pick(emptyCells, r))
    else if difficulty == "hard" then
      var winMove := WinningMove(board, s, gridSize);
      if winMove.Some? then winMove
      else
        var blockMove := BlockingMove(board, s, symbols, gridSize);
        if blockMove.Some? then blockMove
        else
          var centers := Filter(Centers(gridSize), emptyCells);
          if |centers| > 0 then Some(Pick(centers, r))
          else
            var corners := Filter(Corners(gridSize), emptyCells);
            if |corners| > 0 then Some(Pick(corners, r))
            else Some(Pick(emptyCells, r))
    else
      Some(Pick(emptyCells, r))
  }

  // ---------------------------------------------------------------------
  // Properties of the move selection.

  /** With exactly one empty cell, every difficulty plays it. */
  lemma AIMoveSingleCell(board: Board, s: Symbol, difficulty: string, symbols: seq<Symbol>, n: nat, r: Oracle, e: nat)
    requires e < |board| && board[e].None?
    requires forall i :: 0 <= i < |board| && i != e ==> board[i].Some?
    ensures MakeAIMove(board, s, difficulty, symbols, n, r) == Some(e)
  {
  }

  /** At medium and hard, a winning move is always played. */
  lemma AIMoveWinsFirst(board: Board, s: Symbol, difficulty: string, symbols: seq<Symbol>, n: nat, r: Oracle)
    requires difficulty == "medium" || difficulty == "hard"
    requires WinningMove(board, s, n).Some?
    ensures MakeAIMove(board, s, difficulty, symbols, n, r) == WinningMove(board, s, n)
  {
    var i := WinningMove(board, s, n).value;
    assert i in EmptyCells(board);
  }

  /** At medium and hard, without a winning move, a threat is blocked. */
  lemma AIMoveBlocksNext(board: Board, s: Symbol, difficulty: string, symbols: seq<Symbol>, n: nat, r: Oracle)
    requires difficulty == "medium" || difficulty == "hard"
    requires WinningMove(board, s, n).None?
    requires BlockingMove(board, s, symbols, n).Some?
    ensures MakeAIMove(board, s, difficulty, symbols, n, r) == BlockingMove(board, s, symbols, n)
  {
    var i := BlockingMove(board, s, symbols, n).value;
    assert i in EmptyCells(board);
  }

  /** At hard, without a win or block, an empty centre cell is chosen
      whenever one exists. */
  lemma AIMoveHardPrefersCentre(board: Board, s: Symbol, symbols: seq<Symbol>, n: nat, r: Oracle, c: nat)
    requires WinningMove(board, s, n).None?
    requires BlockingMove(board, s, symbols, n).None?
    requires c in Centers(n) && c < |board| && board[c].None?
    ensures var m := MakeAIMove(board, s, "hard", symbols, n, r);
      m.Some? && m.value in Centers(n) && board[m.value].None?
  {
    var e := EmptyCells(board);
    assert c in e;
    var centers := Filter(Centers(n), e);
    assert c in centers;
    assert Pick(centers, r) in e;
  }

  /** At hard, without a win, a block or an empty centre, an empty corner is
      chosen whenever one exists. */
  lemma AIMoveHardThenCorner(board: Board, s: Symbol, symbols: seq<Symbol>, n: nat, r: Oracle, c: nat)
    requires WinningMove(board, s, n).None?
    requires BlockingMove(board, s, symbols, n).None?
    requires forall x :: x in Centers(n) && x < |board| ==> board[x].Some?
    requires c in Corners(n) && c < |board| && board[c].None?
    ensures var m := MakeAIMove(board, s, "hard", symbols, n, r);
      m.Some? && m.value in Corners(n) && board[m.value].None?
  {
    var e := EmptyCells(board);
    assert c in e;
    var centers := Filter(Centers(n), e);
    assert forall x :: x in Centers(n) ==> x !in e;
    FilterNone(Centers(n), e);
    var corners := Filter(Corners(n), e);
    assert c in corners;
    assert Pick(corners, r) in e;
  }

  /** Hard plays every win and block that medium plays. */
  lemma HardExtendsMedium(board: Board, s: Symbol, symbols: seq<Symbol>, n: nat, r: Oracle, r': Oracle)
    requires WinningMove(board, s, n).Some? || BlockingMove(board, s, symbols, n).Some?
    ensures MakeAIMove(board, s, "hard", symbols, n, r) == MakeAIMove(board, s, "medium", symbols, n, r')
  {
    if WinningMove(board, s, n).Some? {
      AIMoveWinsFirst(board, s, "hard", symbols, n, r);
      AIMoveWinsFirst(board, s, "medium", symbols, n, r');
    } else {
      AIMoveBlocksNext(board, s, "hard", symbols, n, r);
      AIMoveBlocksNext(board, s, "medium", symbols, n, r');
    }
  }

  /** Every candidate can be drawn by some oracle value. */
  lemma PickCovers(candidates: seq<nat>, x: nat)
    requires x in candidates
    ensures exists r: Oracle :: Pick(candidates, r) == x
  {
    var i :| 0 <= i < |candidates| && candidates[i] == x;
    assert Pick(candidates, i) == x;
  }

  /** At easy, and at any difficulty other than medium and hard, the move is
      a random empty cell, and every empty cell can be the one chosen. */
  lemma AIMoveEasyIsRandom(board: Board, s: Symbol, difficulty: string, symbols: seq<Symbol>, n: nat, i: nat)
    requires difficulty != "medium" && difficulty != "hard"
    requires i < |board| && board[i].None?
    ensures exists r: Oracle :: MakeAIMove(board, s, difficulty, symbols, n, r) == Some(i)
  {
    var e := EmptyCells(board);
    assert i in e;
    PickCovers(e, i);
    var r :| Pick(e, r) == i;
    assert MakeAIMove(board, s, difficulty, symbols, n, r) == Some(i);
  }
}
