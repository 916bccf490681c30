/** Player rosters, grid size and per-player AI settings. */
module PlayerConfig {
  import opened Board
  import opened Lines

  /** A roster entry before settings are applied (its image is not modelled). */
  datatype BasePlayer = BasePlayer(symbol: Symbol, color: string, name: string)

  /** A player's settings: computer-controlled or not, and its difficulty.
      An entry written without `isAI` reads as `false`, as every reader
      treats the missing field. */
  datatype PlayerSetting = PlayerSetting(isAI: bool, aiDifficulty: string)

  /** A roster entry with its settings applied. */
  datatype Player = Player(symbol: Symbol, color: string, name: string, isAI: bool, aiDifficulty: string)

  /** Settings keyed by player index. */
  type Settings = map<int, PlayerSetting>

  const PLAYER_1 := BasePlayer('X', "#3F7FBF", "Player 1")
  const PLAYER_2 := BasePlayer('O', "#BF3F3F", "Player 2")
  const PLAYER_3 := BasePlayer('□', "#2D5A2D", "Player 3")
  const PLAYER_4 := BasePlayer('△', "#D4AF37", "Player 4")

  /** The roster for each supported player count. */
  const BASE_PLAYER_CONFIGS: map<nat, seq<BasePlayer>> := map[
    2 := [PLAYER_1, PLAYER_2],
    3 := [PLAYER_1, PLAYER_2, PLAYER_3],
    4 := [PLAYER_1, PLAYER_2, PLAYER_3, PLAYER_4]
  ]

  const DEFAULT_SETTING := PlayerSetting(false, "medium")

  /** The symbols of a roster, in order. */
  function Symbols(players: seq<Player>): (r: seq<Symbol>)
    ensures |r| == |players|
    ensures forall i :: 0 <= i < |players| ==> r[i] == players[i].symbol
  {
    seq(|players|, i requires 0 <= i < |players| => players[i].symbol)
  }

  /** No two entries of a roster share a symbol. */
  predicate DistinctSymbols(players: seq<BasePlayer>)
  {
    forall i, j :: 0 <= i < j < |players| ==> players[i].symbol != players[j].symbol
  }

  /** Rosters exist for 2, 3 and 4 players; each has as many entries as
      players, pairwise distinct symbols, and is a prefix of the 4-player one. */
  lemma BaseConfigsWellFormed(k: nat)
    requires 2 <= k <= 4
    ensures k in BASE_PLAYER_CONFIGS
    ensures |BASE_PLAYER_CONFIGS[k]| == k
    ensures DistinctSymbols(BASE_PLAYER_CONFIGS[k])
    ensures BASE_PLAYER_CONFIGS[k] == BASE_PLAYER_CONFIGS[4][..k]
  {
  }

  /** 3×3 for two players, 4×4 for any other count. */
  function GetGridSize(numPlayers: int): (g: nat)
    ensures g == 3 <==> numPlayers == 2
    ensures g == 4 <==> numPlayers != 2
  {
    if numPlayers == 2 then 3 else 4
  }

  /** Number of cells of a grid. */
  function GetTotalCells(gridSize: nat): (t: nat)
    ensures t == gridSize * gridSize
    ensures forall l :: l in AllLines(gridSize) ==> 0 <= l.a < l.b < l.c < t
  {
    AllLinesInBounds(gridSize);
    gridSize * gridSize
  }

  /** Index of the first space of `s` at or after `from`, or |s|. */
  function IndexOfSpace(s: string, from: nat): (k: nat)
    requires from <= |s|
    ensures from <= k <= |s|
    ensures k < |s| ==> s[k] == ' '
    ensures forall j :: from <= j < k ==> s[j] != ' '
    decreases |s| - from
  {
    if from == |s| then from
    else if s[from] == ' ' then from
    else IndexOfSpace(s, from + 1)
  }

  /** The second space-separated word of `s`; a name without a space has
      none, which the template renders as "undefined". */
  function SecondWord(s: string): (w: string)
    ensures (forall j :: 0 <= j < |s| ==> s[j] != ' ') ==> w == "undefined"
    ensures forall j :: 0 <= j < |s| && s[j] == ' ' ==> ' ' !in w
  {
    var i := IndexOfSpace(s, 0);
    if i == |s| then "undefined"
    else
      var e := IndexOfSpace(s, i + 1);
      s[i + 1..e]
  }

  /** The default difficulty stands in for a missing or empty one. */
  function DifficultyOr(setting: Option<PlayerSetting>): string
  {
    if setting.Some? && setting.value.aiDifficulty != "" then setting.value.aiDifficulty else "medium"
  }

  function Lookup(settings: Settings, i: int): Option<PlayerSetting>
  {
    if i in settings then Some(settings[i]) else None
  }

  /** Applies one player's settings to its roster entry. */
  function ConfigurePlayer(p: BasePlayer, setting: Option<PlayerSetting>): Player
  {
    var isAI := setting.Some? && setting.value.isAI;
    Player(p.symbol, p.color,
           if isAI then "AI " + SecondWord(p.name) + " (" + setting.value.aiDifficulty + ")" else p.name,
           isAI, DifficultyOr(setting))
  }

  /** The roster with AI settings applied, entry by entry. */
  function CreatePlayerConfig(basePlayers: seq<BasePlayer>, playerSettings: Settings): (r: seq<Player>)
    ensures |r| == |basePlayers|
    ensures forall i :: 0 <= i < |r| ==>
      r[i].symbol == basePlayers[i].symbol && r[i].color == basePlayers[i].color
    ensures forall i :: 0 <= i < |r| ==> r[i].aiDifficulty == DifficultyOr(Lookup(playerSettings, i))
    ensures forall i :: 0 <= i < |r| && i !in playerSettings ==>
      !r[i].isAI && r[i].aiDifficulty == "medium" && r[i].name == basePlayers[i].name
    ensures forall i :: 0 <= i < |r| && i in playerSettings && !playerSettings[i].isAI ==>
      !r[i].isAI && r[i].name == basePlayers[i].name
    ensures forall i :: 0 <= i < |r| && i in playerSettings && playerSettings[i].isAI ==>
      r[i].isAI &&
      r[i].name == "AI " + SecondWord(basePlayers[i].name) + " (" + playerSettings[i].aiDifficulty + ")"
  {
    seq(|basePlayers|, i requires 0 <= i < |basePlayers| =>
      ConfigurePlayer(basePlayers[i], Lookup(playerSettings, i)))
  }

  /** Settings never change the symbols of the roster. */
  lemma CreatePlayerConfigSymbols(basePlayers: seq<BasePlayer>, playerSettings: Settings)
    ensures var symbols := Symbols(CreatePlayerConfig(basePlayers, playerSettings));
      |symbols| == |basePlayers| && forall i :: 0 <= i < |basePlayers| ==> symbols[i] == basePlayers[i].symbol
  {
  }

  /** The first space at or after `from` is at `k` when `k` is a space (or
      the end) and nothing between is one. */
  lemma IndexOfSpaceAt(s: string, from: nat, k: nat)
    requires from <= k <= |s|
    requires k < |s| ==> s[k] == ' '
    requires forall j :: from <= j < k ==> s[j] != ' '
    ensures IndexOfSpace(s, from) == k
  {
  }

  /** The second word of "w1 w2", followed by nothing or by further words
      after a space, is w2, as splitting at spaces takes the entry at index 1. */
  lemma SecondWordOfWords(w1: string, w2: string, rest: string)
    requires ' ' !in w1 && ' ' !in w2
    requires rest == [] || rest[0] == ' '
    ensures SecondWord(w1 + " " + w2 + rest) == w2
  {
    var s := w1 + " " + w2 + rest;
    assert forall j :: 0 <= j < |w1| ==> s[j] == w1[j];
    assert s[|w1|] == ' ';
    assert forall j :: |w1| < j < |w1| + 1 + |w2| ==> s[j] == w2[j - |w1| - 1];
    assert rest != [] ==> s[|w1| + 1 + |w2|] == ' ';
    IndexOfSpaceAt(s, 0, |w1|);
    IndexOfSpaceAt(s, |w1| + 1, |w1| + 1 + |w2|);
    assert s[|w1| + 1..|w1| + 1 + |w2|] == w2;
  }

  /** An AI player of the base rosters is named "AI k (difficulty)". */
  lemma BaseNameOfAI(k: nat, i: nat, playerSettings: Settings)
    requires 2 <= k <= 4 && i < k
    requires i in playerSettings && playerSettings[i].isAI
    ensures CreatePlayerConfig(BASE_PLAYER_CONFIGS[k], playerSettings)[i].name
      == "AI " + [BASE_PLAYER_CONFIGS[k][i].name[7]] + " (" + playerSettings[i].aiDifficulty + ")"
  {
    var p := BASE_PLAYER_CONFIGS[k][i];
    assert p.name == "Player" + " " + [p.name[7]];
    SecondWordOfWords("Player", [p.name[7]], []);
    assert "Player" + " " + [p.name[7]] + [] == p.name;
  }

  /** Default settings for players 0 .. numPlayers - 1, filled in a loop. */
  method InitializePlayerSettings(numPlayers: int) returns (settings: Settings)
    ensures forall i :: i in settings <==> 0 <= i < numPlayers
    ensures forall i :: i in settings ==> settings[i] == DEFAULT_SETTING
  {
    settings := map[];
    var i := 0;
    while i < numPlayers
      invariant 0 <= i && (i <= numPlayers || i == 0)
      invariant forall j :: j in settings <==> 0 <= j < i
      invariant forall j :: j in settings ==> settings[j] == DEFAULT_SETTING
    {
      settings := settings[i := DEFAULT_SETTING];
      i := i + 1;
    }
  }
}
