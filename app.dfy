/** The configurable 2–4 player game screen: per-player human/AI settings,
    the turn state machine, and the computer player's move. */
module App {
  import opened Board
  import opened Lines
  import opened Evaluator
  import opened AI
  import opened PlayerConfig
  import opened Turns

  datatype Mode = Selection | Config | Playing

  /** `isAI` of player k; a missing entry or field reads as false. */
  function IsAI(settings: Settings, k: int): bool
  {
    k in settings && settings[k].isAI
  }

  /** Flips player k between human and computer, keeping its difficulty
      (or "medium" if it has none); every other entry is unchanged. */
  function TogglePlayerType(settings: Settings, k: int): (r: Settings)
    ensures r.Keys == settings.Keys + {k}
    ensures IsAI(r, k) == !IsAI(settings, k)
    ensures r[k].aiDifficulty == DifficultyOr(Lookup(settings, k))
    ensures forall j :: j in settings && j != k ==> r[j] == settings[j]
  {
    settings[k := PlayerSetting(!IsAI(settings, k), DifficultyOr(Lookup(settings, k)))]
  }

  /** Sets player k's difficulty and nothing else. */
  function ChangeAIDifficulty(settings: Settings, k: int, difficulty: string): (r: Settings)
    ensures r.Keys == settings.Keys + {k}
    ensures r[k].aiDifficulty == difficulty
    ensures IsAI(r, k) == IsAI(settings, k)
    ensures forall j :: j in settings && j != k ==> r[j] == settings[j]
  {
    settings[k := PlayerSetting(IsAI(settings, k), difficulty)]
  }

  /** Toggling twice restores a player that already had a difficulty. */
  lemma ToggleTwice(settings: Settings, k: int)
    requires k in settings && settings[k].aiDifficulty != ""
    ensures TogglePlayerType(TogglePlayerType(settings, k), k) == settings
  {
    var once := TogglePlayerType(settings, k);
    var twice := TogglePlayerType(once, k);
    assert twice.Keys == settings.Keys;
    assert twice[k] == settings[k];
  }

  /** The settings effect run when the player count changes: every player
      0 .. numPlayers - 1 without an entry gets the default one. */
  method FillMissingSettings(playerSettings: Settings, numPlayers: int) returns (r: Settings)
    ensures forall i :: i in r <==> i in playerSettings || 0 <= i < numPlayers
    ensures forall i :: i in playerSettings ==> r[i] == playerSettings[i]
    ensures forall i :: i in r && i !in playerSettings ==> r[i] == DEFAULT_SETTING
  {
    var initialSettings: Settings := map[];
    var i := 0;
    while i < numPlayers
      invariant 0 <= i && (i <= numPlayers || i == 0)
      invariant forall j :: j in initialSettings <==> 0 <= j < i && j !in playerSettings
      invariant forall j :: j in initialSettings ==> initialSettings[j] == DEFAULT_SETTING
    {
      if i !in playerSettings {
        initialSettings := initialSettings[i := DEFAULT_SETTING];
      }
      i := i + 1;
    }
    r := playerSettings + initialSettings;
  }

  /** The centre and corner cells the computer prefers lie on the board of
      every supported player count, which has 9 or 16 cells. */
  lemma PreferredCellsOnBoard(numPlayers: int)
    requires 2 <= numPlayers <= 4
    ensures GetTotalCells(GetGridSize(numPlayers)) == if numPlayers == 2 then 9 else 16
    ensures forall c :: c in Centers(GetGridSize(numPlayers)) ==> c < GetTotalCells(GetGridSize(numPlayers))
    ensures forall c :: c in Corners(GetGridSize(numPlayers)) ==> c < GetTotalCells(GetGridSize(numPlayers))
  {
  }

  class Game {
    var mode: Mode
    var numPlayers: nat
    var playerSettings: Settings
    var board: Board
    var currentPlayerIndex: nat
    var winnerInfo: Option<Outcome>

    /** The roster with the current settings applied. */
    function CurrentPlayers(): seq<Player>
      reads this
      requires numPlayers in BASE_PLAYER_CONFIGS
    {
      CreatePlayerConfig(BASE_PLAYER_CONFIGS[numPlayers], playerSettings)
    }

    /** The game in progress as a value. */
    function Current(): Play
      reads this`board, this`currentPlayerIndex, this`winnerInfo
    {
      Play(board, currentPlayerIndex, winnerInfo)
    }

    /** A supported player count; while playing, a consistent game on the
        gridSize × gridSize board: after m moves of an undecided game it is
        player m mod numPlayers's turn, and a decided game stays on the last
        mover. */
    ghost predicate Valid()
      reads this`mode, this`numPlayers, this`board, this`currentPlayerIndex, this`winnerInfo
    {
      && 2 <= numPlayers <= 4
      && (mode == Playing ==> PlayValid(Current(), GetGridSize(numPlayers), numPlayers))
    }

    /** The symbol of the player whose turn it is; settings never change it. */
    function MoverSymbol(): Symbol
      reads this`numPlayers, this`currentPlayerIndex
      requires 2 <= numPlayers <= 4 && currentPlayerIndex < numPlayers
    {
      BaseConfigsWellFormed(numPlayers);
      BASE_PLAYER_CONFIGS[numPlayers][currentPlayerIndex].symbol
    }

    /** The player whose turn it is, with the current settings applied. */
    function CurrentPlayer(): Player
      reads this
      requires 2 <= numPlayers <= 4 && currentPlayerIndex < numPlayers
    {
      BaseConfigsWellFormed(numPlayers);
      CurrentPlayers()[currentPlayerIndex]
    }

    /** The selection screen, with the settings effect run once on mount. */
    constructor ()
      ensures Valid()
      ensures mode == Selection && numPlayers == 2 && board == []
      ensures currentPlayerIndex == 0 && winnerInfo == None
      ensures playerSettings == map[0 := DEFAULT_SETTING, 1 := DEFAULT_SETTING]
    {
      var initial := FillMissingSettings(map[], 2);
      assert forall i :: i in initial <==> i == 0 || i == 1;
      assert initial.Keys == {0, 1};
      mode := Selection;
      numPlayers := 2;
      playerSettings := initial;
      board := [];
      currentPlayerIndex := 0;
      winnerInfo := None;
    }

    /** Chooses the player count, then the settings effect fills in the
        new players' defaults. */
    method GoToPlayerConfig(players: nat)
      requires Valid() && 2 <= players <= 4
      modifies this
      ensures Valid()
      ensures mode == Config && numPlayers == players
      ensures forall i :: i in playerSettings <==> i in old(playerSettings) || 0 <= i < players
      ensures forall i :: i in old(playerSettings) ==> playerSettings[i] == old(playerSettings)[i]
      ensures forall i :: i in playerSettings && i !in old(playerSettings) ==> playerSettings[i] == DEFAULT_SETTING
      ensures board == old(board) && currentPlayerIndex == old(currentPlayerIndex) && winnerInfo == old(winnerInfo)
    {
      numPlayers := players;
      mode := Config;
      playerSettings := FillMissingSettings(playerSettings, players);
    }

    method TogglePlayer(playerIndex: int)
      requires Valid()
      modifies this`playerSettings
      ensures Valid()
      ensures playerSettings == TogglePlayerType(old(playerSettings), playerIndex)
    {
      playerSettings := TogglePlayerType(playerSettings, playerIndex);
    }

    method ChangeDifficulty(playerIndex: int, difficulty: string)
      requires Valid()
      modifies this`playerSettings
      ensures Valid()
      ensures playerSettings == ChangeAIDifficulty(old(playerSettings), playerIndex, difficulty)
    {
      playerSettings := ChangeAIDifficulty(playerSettings, playerIndex, difficulty);
    }

    /** Starts playing; the board effect then lays out an empty board. */
    method StartGame()
      requires Valid() && mode == Config
      modifies this
      ensures Valid()
      ensures mode == Playing && numPlayers == old(numPlayers) && playerSettings == old(playerSettings)
      ensures Current() == StartPlay(GetGridSize(numPlayers))
    {
      mode := Playing;
      Reset();
    }

    /** An empty board of gridSize² cells, the first player's turn, no verdict. */
    method RestartGame()
      requires Valid()
      modifies this
      ensures Valid()
      ensures mode == old(mode) && numPlayers == old(numPlayers) && playerSettings == old(playerSettings)
      ensures Current() == StartPlay(GetGridSize(numPlayers))
    {
      Reset();
    }

    /** The board effect shared by starting and restarting: an empty
        grid of the size for the player count, the first player, no verdict. */
    method Reset()
      requires 2 <= numPlayers <= 4
      modifies this`board, this`currentPlayerIndex, this`winnerInfo
      ensures Valid()
      ensures Current() == StartPlay(GetGridSize(numPlayers))
    {
      var q := StartPlay(GetGridSize(numPlayers));
      StartPlayValid(GetGridSize(numPlayers), numPlayers);
      board, currentPlayerIndex, winnerInfo := q.board, q.turn, q.verdict;
    }

    method BackToSelection()
      requires Valid()
      modifies this`mode, this`winnerInfo
      ensures Valid()
      ensures mode == Selection && winnerInfo == None
    {
      mode := Selection;
      winnerInfo := None;
    }

    method BackToConfig()
      requires Valid()
      modifies this`mode, this`winnerInfo
      ensures Valid()
      ensures mode == Config && winnerInfo == None
    {
      mode := Config;
      winnerInfo := None;
    }

    /** A tap (or the computer's choice) on cell `index`: ignored on an
        occupied cell or a decided game; otherwise the current player's
        symbol is written there, the board is evaluated, and the turn passes
        on only if the game goes on. */
    method HandleMove(index: nat)
      requires Valid() && mode == Playing && index < |board|
      modifies this`board, this`currentPlayerIndex, this`winnerInfo
      ensures Valid()
      ensures Current() == NextPlay(old(Current()), GetGridSize(numPlayers), numPlayers, index, old(MoverSymbol()))
    {
      var currentPlayer := CurrentPlayer();
      assert currentPlayer.symbol == MoverSymbol();
      var q := PlayMove(Current(), GetGridSize(numPlayers), numPlayers, index, currentPlayer.symbol);
      NextPlayValid(Current(), GetGridSize(numPlayers), numPlayers, index, currentPlayer.symbol);
      board, currentPlayerIndex, winnerInfo := q.board, q.turn, q.verdict;
    }

    /** The move the computer player whose turn it is would choose, or
        None when it is a human's turn or the game is not on. */
    function AIChoice(r: Oracle): (m: Option<nat>)
      reads this
      requires 2 <= numPlayers <= 4 && (mode == Playing ==> currentPlayerIndex < numPlayers)
      ensures m.Some? ==> mode == Playing && winnerInfo.None? && m.value < |board| && board[m.value].None?
      ensures m.Some? ==> mode == Playing && CurrentPlayer().isAI
      ensures mode == Playing && winnerInfo.None? && CurrentPlayer().isAI && !Full(board) ==> m.Some?
    {
      if mode == Playing && winnerInfo.None? && CurrentPlayer().isAI then
        var p := CurrentPlayer();
        var symbols := Symbols(CurrentPlayers());
        MakeAIMove(board, p.symbol, p.aiDifficulty, symbols, GetGridSize(numPlayers), r)
      else None
    }

    /** The AI effect, with the delay left out: when it is a computer
        player's turn in an undecided game, it plays its chosen move, if any;
        otherwise nothing changes. `r` stands for the random draw. */
    method AITurn(r: Oracle)
      requires Valid()
      modifies this`board, this`currentPlayerIndex, this`winnerInfo
      ensures Valid()
      ensures old(AIChoice(r)).Some? ==>
        Current() == NextPlay(old(Current()), GetGridSize(numPlayers), numPlayers, old(AIChoice(r)).value, old(MoverSymbol()))
      ensures old(AIChoice(r)).None? ==> Current() == old(Current())
    {
      var move := AIChoice(r);
      if move.Some? {
        HandleMove(move.value);
      }
    }
  }
}
