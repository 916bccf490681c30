/** A move of the 2–4 player screens: the state of a game in progress and
    what a tap on a cell does to it. */
module Turns {
  import opened Board
  import opened Lines
  import opened Evaluator

  /** A game in progress: the board, whose turn it is, and the stored
      verdict (`None` while the game goes on). */
  datatype Play = Play(board: Board, turn: nat, verdict: Option<Outcome>)

  /** A consistent game on an N×N board among `players` players: N² cells,
      a turn index naming a player, the stored verdict equal to the board's
      verdict, and the turn in rotation over the moves made. */
  ghost predicate PlayValid(p: Play, n: nat, players: nat)
  {
    && |p.board| == n * n
    && p.turn < players
    && p.verdict == Verdict(p.board, n)
    && TurnInRotation(Filled(p.board), players, p.turn, p.verdict.Some?)
  }

  /** The effect of a tap on cell `index` by the player of symbol `s`: an
      occupied cell or a decided game changes nothing; otherwise `s` is
      written on the cell, the new board is evaluated, and the turn passes
      to the next player only if the game goes on. */
  function NextPlay(p: Play, n: nat, players: nat, index: nat, s: Symbol): (q: Play)
    requires index < |p.board| && players > 0
    ensures |q.board| == |p.board|
    ensures q.board[index] == p.board[index] || q.board[index] == Some(s)
    ensures p.verdict.None? ==> q.board[index].Some?
    ensures forall j :: 0 <= j < |p.board| && j != index ==> q.board[j] == p.board[j]
    ensures p.turn < players ==> q.turn < players
    ensures p.verdict.Some? ==> q == p
    ensures p.board[index].Some? ==> q == p
  {
    if p.board[index].Some? || p.verdict.Some? then p
    else
      var board := p.board[index := Some(s)];
      var verdict := Verdict(board, n);
      Play(board, if verdict.None? then (p.turn + 1) % players else p.turn, verdict)
  }

  /** The first game state: an empty board, the first player, no verdict. */
  function StartPlay(n: nat): Play
  {
    Play(EmptyBoard(n * n), 0, None)
  }

  /** The state the move handlers compute, with the verdict from the
      line-scanning evaluator. */
  method PlayMove(p: Play, n: nat, players: nat, index: nat, s: Symbol) returns (q: Play)
    requires index < |p.board| && players > 0
    ensures q == NextPlay(p, n, players, index, s)
  {
    if p.board[index].Some? || p.verdict.Some? {
      return p;
    }
    var board := p.board[index := Some(s)];
    var gameResult := CalculateWinner(board, n);
    if gameResult.Some? {
      q := Play(board, p.turn, gameResult);
    } else {
      q := Play(board, (p.turn + 1) % players, None);
    }
  }

  // ---------------------------------------------------------------------
  // Properties of a move.

  /** A new game is consistent for every supported grid and player count. */
  lemma StartPlayValid(n: nat, players: nat)
    requires n > 0 && 2 <= players <= 4
    ensures PlayValid(StartPlay(n), n, players)
  {
    EmptyBoardGoesOn(n);
    EmptyBoardCounts(n * n, 'X');
  }

  /** A move keeps the game consistent. */
  lemma NextPlayValid(p: Play, n: nat, players: nat, index: nat, s: Symbol)
    requires PlayValid(p, n, players) && 2 <= players <= 4 && index < |p.board|
    ensures PlayValid(NextPlay(p, n, players, index, s), n, players)
  {
    if p.board[index].None? && p.verdict.None? {
      var board := p.board[index := Some(s)];
      var moves := Filled(p.board);
      FilledUpdate(p.board, index, s);
      assert Filled(board) == moves + 1;
      assert p.turn == moves % players;
      if Verdict(board, n).None? {
        NextTurn(moves, players);
      }
    }
  }

  /** A move that decides the game with a win is a win for the mover, along
      a line through the cell just played. */
  lemma NextPlayWinnerIsMover(p: Play, n: nat, players: nat, index: nat, s: Symbol)
    requires PlayValid(p, n, players) && players > 0 && index < |p.board|
    ensures var q := NextPlay(p, n, players, index, s);
      p.verdict.None? && q.verdict.Some? && q.verdict.value.Winner? ==>
        q.verdict.value.winner == s && index in {q.verdict.value.line.a, q.verdict.value.line.b, q.verdict.value.line.c}
  {
    if p.board[index].None? && p.verdict.None? {
      EvaluateSpec(p.board, AllLines(n));
      NewWinnerIsMover(p.board, AllLines(n), index, s);
    }
  }

  /** A move on an empty cell of an undecided game fills exactly one more
      cell; the turn passes to the next player in rotation unless the move
      decides the game, when it stays with the mover. */
  lemma NextPlayFillsOneCell(p: Play, n: nat, players: nat, index: nat, s: Symbol)
    requires players > 0 && index < |p.board| && p.board[index].None? && p.verdict.None?
    ensures var q := NextPlay(p, n, players, index, s);
      && Filled(q.board) == Filled(p.board) + 1
      && q.board[index] == Some(s)
      && (forall j :: 0 <= j < |p.board| && j != index ==> q.board[j] == p.board[j])
      && (q.verdict.None? ==> q.turn == (p.turn + 1) % players)
      && (q.verdict.Some? ==> q.turn == p.turn)
  {
    FilledUpdate(p.board, index, s);
  }

  /** Once decided, a game ignores every further tap. */
  lemma DecidedIsFinal(p: Play, n: nat, players: nat, index: nat, s: Symbol)
    requires players > 0 && index < |p.board| && p.verdict.Some?
    ensures NextPlay(p, n, players, index, s) == p
  {
  }
}
