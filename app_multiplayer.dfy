/** The earlier 2–4 player screen without computer players: choose a player
    count, then take turns on a 3×3 or 4×4 board. */
module MultiPlayer {
  import opened Board
  import opened PlayerConfig
  import opened Turns

  datatype Screen = Selection | Playing

  class Game {
    var mode: Screen
    var numPlayers: nat
    var board: Board
    var currentPlayerIndex: nat
    var winnerInfo: Option<Outcome>

    /** The symbol of the player whose turn it is; this screen's rosters are
        the base rosters. */
    function MoverSymbol(): Symbol
      reads this`numPlayers, this`currentPlayerIndex
      requires 2 <= numPlayers <= 4 && currentPlayerIndex < numPlayers
    {
      BaseConfigsWellFormed(numPlayers);
      BASE_PLAYER_CONFIGS[numPlayers][currentPlayerIndex].symbol
    }

    /** The game in progress as a value. */
    function Current(): Play
      reads this`board, this`currentPlayerIndex, this`winnerInfo
    {
      Play(board, currentPlayerIndex, winnerInfo)
    }

    /** A supported player count; while playing, a consistent game on the
        gridSize × gridSize board. */
    ghost predicate Valid()
      reads this`mode, this`numPlayers, this`board, this`currentPlayerIndex, this`winnerInfo
    {
      && 2 <= numPlayers <= 4
      && (mode == Playing ==> PlayValid(Current(), GetGridSize(numPlayers), numPlayers))
    }

    /** The selection screen for two players, with no board yet. */
    constructor ()
      ensures Valid()
      ensures mode == Selection && numPlayers == 2 && board == []
      ensures currentPlayerIndex == 0 && winnerInfo == None
    {
      mode := Selection;
      numPlayers := 2;
      board := [];
      currentPlayerIndex := 0;
      winnerInfo := None;
    }

    /** Sets the player count and starts playing; the board effect then
        lays out an empty board for the first player. */
    method StartGame(players: nat)
      requires Valid() && mode == Selection && 2 <= players <= 4
      modifies this
      ensures Valid()
      ensures mode == Playing && numPlayers == players
      ensures Current() == StartPlay(GetGridSize(players))
    {
      numPlayers := players;
      mode := Playing;
      RestartGame();
    }

    /** Leaves the board for the selection screen and forgets the verdict. */
    method BackToSelection()
      requires Valid()
      modifies this`mode, this`winnerInfo
      ensures Valid()
      ensures mode == Selection && winnerInfo == None
    {
      mode := Selection;
      winnerInfo := None;
    }

    /** A tap on cell `index` by the player whose turn it is. */
    method HandleMove(index: nat)
      requires Valid() && mode == Playing && index < |board|
      modifies this`board, this`currentPlayerIndex, this`winnerInfo
      ensures Valid()
      ensures Current() == NextPlay(old(Current()), GetGridSize(numPlayers), numPlayers, index, old(MoverSymbol()))
    {
      var q := PlayMove(Current(), GetGridSize(numPlayers), numPlayers, index, MoverSymbol());
      NextPlayValid(Current(), GetGridSize(numPlayers), numPlayers, index, MoverSymbol());
      board, currentPlayerIndex, winnerInfo := q.board, q.turn, q.verdict;
    }

    /** An empty board of gridSize² cells, the first player's turn, no verdict. */
    method RestartGame()
      requires 2 <= numPlayers <= 4
      modifies this`board, this`currentPlayerIndex, this`winnerInfo
      ensures Valid()
      ensures Current() == StartPlay(GetGridSize(numPlayers))
    {
      var q := StartPlay(GetGridSize(numPlayers));
      StartPlayValid(GetGridSize(numPlayers), numPlayers);
      board, currentPlayerIndex, winnerInfo := q.board, q.turn, q.verdict;
    }
  }
}
