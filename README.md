# Tic-tac-toe engine for 2–4 players

This project models the game engine of a React Native tic-tac-toe app in Dafny. The app lets two, three or four players share one board. Two players get a 3×3 grid and three or four get a 4×4 grid. A line is any three consecutive cells in a row, a column or a diagonal. Any player can be a computer opponent at "easy", "medium" or "hard".

What is modelled:

- **Board** (`board.dfy`): cells, boards, lines, verdicts, symbol and move counts, and whose turn it is.
- **Lines** (`lines.dfy`): the win-line generator that `calculateWinner` builds with nested loops. It is written as the loops (methods `AppendPass`, `AppendDir`, `GenerateLines`) and as a specification function `AllLines`. `AllLines` is proved:
  - to give the right number of lines;
  - to contain exactly the straight runs of three on the grid, each with three distinct in-range indices.
- **Evaluator** (`evaluator.dfy`): the verdict scan. The first winning line in generation order wins; otherwise a full board is a draw; otherwise the game goes on.
- **AI** (`ai.dfy`): `findWinningMove`, `findBlockingMove` and `makeAIMove`. The randomness of `Math.random()` becomes an oracle argument.
- **PlayerConfig** (`player_config.dfy`): the base rosters, the grid size and cell count, applying the AI settings to a roster, and the default settings.
- **Turns** (`turns.dfy`): the move of the multi-player screens as a transition on a value: board, turn index and stored verdict. It comes with the invariant that every move preserves.
- **App** (`app.dfy`): the configurable screen, as a class whose methods change its state fields. This covers the screens, the player settings, moves, restart and the computer player's turn.
- **MultiPlayer** (`app_multiplayer.dfy`): the earlier 2–4 player screen without computer players.
- **Original** (`app_original.dfy`): the first two-player screen. It has a fixed table of eight lines and an X/O toggle.

Each screen's handlers become one method each. A handler together with the effects it triggers is one atomic state change. `calculateWinner` appears in `src/utils/gameLogic.js`, `App.js` and `App_MultiPlayer.js` with the same body. It is modelled once, as `Evaluator.CalculateWinner`. The copy in `App_Original.js` uses a fixed table, and that table is proved equal to the generated list for N = 3.

For N = 4 the loops give 4·2 + 4·2 + 2² + 2² = 24 lines, and for N = 3 they give 8 (`Lines.LineCount`).

## Model

| member | source | states |
|---|---|---|
| Lines.GenerateLines | src/utils/gameLogic.js:13-58 | the nested loops produce exactly the specification list `AllLines(n)`: horizontal, then vertical, then ↘, then ↙, in loop order |
| Lines.AppendPass | src/utils/gameLogic.js:18-24 | one pass of an inner loop appends the lines of that outer index, in order |
| Lines.AppendDir | src/utils/gameLogic.js:17-25 | the loops of one direction append every pass of that direction, in order |
| Lines.LineCount | src/utils/gameLogic.js:17-58 | there are N·(N−2) horizontal, N·(N−2) vertical and (N−2)² lines per diagonal direction; 8 for N = 3, 24 for N = 4, none for N < 3 |
| Lines.LinesAreRuns | src/utils/gameLogic.js:17-58 | every generated line is a run of three consecutive cells along a row, a column or a diagonal that stays on the grid |
| Lines.LinesInBounds | src/utils/gameLogic.js:17-58 | every generated line has three distinct, increasing indices in [0, N²) |
| Lines.AllLinesInBounds | src/utils/gameLogic.js:17-58 | all generated lines of an N×N grid, at once, name only cells in [0, N²) |
| Lines.RunsAreLines | src/utils/gameLogic.js:17-58 | conversely, every run of three on the grid in any of the four directions is generated |
| Evaluator.FirstWinIndex | src/utils/gameLogic.js:61-65 | the position it returns is the first winning line: it wins, and no earlier line does |
| Evaluator.ScanLines | src/utils/gameLogic.js:61-70 | the early-return scan computes the verdict of first winning line, else draw on a full board, else none |
| Evaluator.CalculateWinner | src/utils/gameLogic.js:12-71 | generating the lines and then scanning gives the verdict of the N×N grid |
| Evaluator.EvaluateSpec | src/utils/gameLogic.js:61-70 | a winner verdict names a winning line of the list and that line's symbol; there is a winner iff some line wins; a draw iff no line wins and the board is full; no verdict iff no line wins and a cell is empty |
| Evaluator.EvaluateFirstMatch | src/utils/gameLogic.js:61-65 | when line k wins and no earlier line does, the verdict is line k with its symbol |
| Evaluator.EmptyBoardGoesOn | src/utils/gameLogic.js:68-70 | an empty board of a grid with cells has no verdict |
| Evaluator.NewWinnerIsMover | src/utils/gameLogic.js:61-65 | a move on a board with no winning line can only produce a win for the mover, on a line through the cell played |
| AI.EmptyCells | src/utils/gameLogic.js:128 | the empty-cell list holds exactly the indices of the empty cells, in ascending order |
| AI.FirstCompleting | src/utils/gameLogic.js:81-90 | the first cell at or after `from` where the symbol wins, with no winning cell before it; none when there is no such cell |
| AI.FindWinningMove | src/utils/gameLogic.js:80-91 | the loop over copies of the board returns the smallest empty index where the symbol wins, or none |
| AI.WinningMoveIsFirst | src/utils/gameLogic.js:81-87 | a winning cell with no winning cell before it is the winning move |
| AI.WinningMove | src/utils/gameLogic.js:80-91 | a winning move is an empty cell where playing the symbol gives a winner verdict for it, and no lower cell does; without one, no empty cell wins for the symbol |
| AI.Opponents | src/utils/gameLogic.js:102 | the opponents are exactly the roster symbols other than the mover's |
| AI.FirstThreat | src/utils/gameLogic.js:104-114 | the first opponent in roster order with a winning move; none before it has one |
| AI.FindBlockingMove | src/utils/gameLogic.js:101-116 | the opponent loop returns the winning cell of the first opponent, in roster order, that has one, or none |
| AI.NoThreat | src/utils/gameLogic.js:104-115 | when the opponent scan finds no threat, no listed opponent has a winning move |
| AI.BlockingMove | src/utils/gameLogic.js:101-116 | there is no blocking move iff no opponent can win next; a blocking move is the winning move of some opponent other than the mover, and an empty cell |
| AI.FirstThreatSkip | src/utils/gameLogic.js:104-113 | an opponent without a winning move is passed over, and the scan goes on with the next one |
| AI.FirstThreatInRoster | src/utils/gameLogic.js:102-113 | the first roster entry, other than the mover, that has a winning move is the first threat the scan finds |
| AI.BlockingMoveFirstInRoster | src/utils/gameLogic.js:101-116 | the blocking move is the winning move of the first player in roster order, other than the mover, that has one |
| AI.Filter | src/utils/gameLogic.js:157 | the filtered candidates are exactly those that are in the allowed list |
| AI.FilterNone | src/utils/gameLogic.js:157-158 | no allowed candidate gives an empty list |
| AI.Pick | src/utils/gameLogic.js:135 | the random choice is one of the candidates |
| AI.PickCovers | src/utils/gameLogic.js:135 | every candidate can be the one chosen |
| AI.NoEmptyCellIffFull | src/utils/gameLogic.js:128-130 | the list of empty cells is empty iff the board is full |
| AI.MakeAIMove | src/utils/gameLogic.js:127-174 | at every difficulty, including unknown ones, the computer declines to move iff the board is full, and any move it makes is an empty cell |
| AI.AIMoveSingleCell | src/utils/gameLogic.js:127-174 | with one empty cell, every difficulty plays that cell |
| AI.AIMoveWinsFirst | src/utils/gameLogic.js:139-140 | at medium and hard, an available winning move is played, before any block |
| AI.AIMoveBlocksNext | src/utils/gameLogic.js:142-153 | at medium and hard, without a winning move, the blocking move is played |
| AI.AIMoveHardPrefersCentre | src/utils/gameLogic.js:155-160 | at hard, without a win or block, an empty centre cell (4 on 3×3, 5, 6, 9, 10 otherwise) is chosen when one exists |
| AI.AIMoveHardThenCorner | src/utils/gameLogic.js:162-167 | at hard, without a win, block or empty centre, an empty corner (0, 2, 6, 8 on 3×3, 0, 3, 12, 15 otherwise) is chosen when one exists |
| AI.HardExtendsMedium | src/utils/gameLogic.js:137-153 | hard and medium make the same move whenever a win or a block exists |
| AI.AIMoveEasyIsRandom | src/utils/gameLogic.js:133-135 | at easy and at any unknown difficulty, every empty cell can be the move |
| PlayerConfig.BaseConfigsWellFormed | src/utils/playerConfig.js:7-68 | the roster for k ∈ {2, 3, 4} has k entries with pairwise distinct symbols and is a prefix of the 4-player roster |
| PlayerConfig.GetGridSize | src/utils/playerConfig.js:75-77 | the grid is 3 iff there are two players, and 4 otherwise |
| PlayerConfig.GetTotalCells | src/utils/playerConfig.js:84-86 | a grid of size g has g·g cells, and every win line of that grid names only cells below that count |
| PlayerConfig.CreatePlayerConfig | src/utils/playerConfig.js:94-102 | length, order, symbols and colours are kept; each player's difficulty is its setting's, or "medium" without one; a player without settings is human with its own name; a human keeps its name; an AI is named "AI " + second word of its name + " (difficulty)" |
| PlayerConfig.CreatePlayerConfigSymbols | src/utils/playerConfig.js:94-96 | applying settings never changes the roster's symbols: the symbol list has the roster's length and its i-th entry is the i-th player's symbol |
| PlayerConfig.IndexOfSpace | src/utils/playerConfig.js:100 | the first space at or after `from`, with no space before it, or the length |
| PlayerConfig.SecondWord | src/utils/playerConfig.js:100 | a name without a space has no second word (rendered "undefined"); the second word never contains a space |
| PlayerConfig.IndexOfSpaceAt | src/utils/playerConfig.js:100 | the first space at or after `from` is where the next space (or the end) lies |
| PlayerConfig.SecondWordOfWords | src/utils/playerConfig.js:100 | the second word of "w1 w2", alone or followed by further space-separated words, is w2 |
| PlayerConfig.BaseNameOfAI | src/utils/playerConfig.js:99-101 | an AI player of a base roster is named "AI k (difficulty)", k being the digit of "Player k" |
| PlayerConfig.InitializePlayerSettings | src/utils/playerConfig.js:110-116 | the settings have exactly the keys 0 … n−1, each human at "medium" |
| Turns.NextPlay | App_MultiPlayer.js:74-93 | a tap on an occupied cell, or on a decided game, changes nothing; otherwise no cell but the one tapped changes, and it receives the mover's symbol; the board keeps its size and the turn stays a player index |
| Turns.PlayMove | App_MultiPlayer.js:74-93 | a move computes the transition `NextPlay`: no change on an occupied cell or decided game; otherwise the mover's symbol is written, the verdict stored, and the turn advanced modulo the player count only if the game goes on |
| Turns.StartPlayValid | App_MultiPlayer.js:51-58 | the starting state (empty gridSize² board, turn 0, no verdict) is consistent for every supported player count |
| Turns.NextPlayValid | App_MultiPlayer.js:74-93 | every move keeps the state consistent: the stored verdict is the board's, and the turn is the next player in rotation after m moves, or the last mover once decided |
| Turns.NextPlayWinnerIsMover | App_MultiPlayer.js:79-84 | a move that wins the game is a win for the mover, on a line through the cell played |
| Turns.NextPlayFillsOneCell | App_MultiPlayer.js:77-92 | a legal move fills exactly one more cell, the one played, and changes no other cell; the turn passes to the next player modulo the player count if the game goes on, and stays with the mover if it is decided |
| Turns.DecidedIsFinal | App_MultiPlayer.js:75 | a decided game ignores every further tap |
| MultiPlayer.Game.constructor | App_MultiPlayer.js:15-19 | the selection screen for two players, with no board and no verdict |
| MultiPlayer.Game.StartGame | App_MultiPlayer.js:61-64 | choosing a count of players opens play with an empty board of gridSize² cells, turn 0 and no verdict (the board effect at lines 51-58) |
| MultiPlayer.Game.BackToSelection | App_MultiPlayer.js:67-71 | back on the selection screen with the verdict cleared |
| MultiPlayer.Game.HandleMove | App_MultiPlayer.js:74-93 | the new state is the transition `NextPlay` of the old one with the current player's symbol, and stays consistent |
| MultiPlayer.Game.RestartGame | App_MultiPlayer.js:120-125 | an empty board of gridSize² cells, turn 0 and no verdict |
| App.TogglePlayerType | App.js:354-364 | player k's `isAI` is flipped and its difficulty kept, or "medium" if it has none; every other entry is unchanged |
| App.ToggleTwice | App.js:354-364 | toggling a player twice restores its settings |
| App.ChangeAIDifficulty | App.js:367-376 | only player k's difficulty changes, to the one given; its `isAI` and every other entry are unchanged |
| App.FillMissingSettings | App.js:235-245 | after a change of player count, every player 0 … n−1 has settings; existing entries are kept and new ones are the default |
| App.PreferredCellsOnBoard | App.js:221-222 | the board has 9 cells for two players and 16 otherwise, and every centre and corner cell lies on it |
| App.Game.constructor | App.js:19-27 | the selection screen for two players, with the mount-time settings effect giving both players the default |
| App.Game.GoToPlayerConfig | App.js:347-351 | the configuration screen for the chosen count of players, with the settings effect filling in the new players' defaults |
| App.Game.TogglePlayer | App.js:354-364 | the settings become `TogglePlayerType` of the old ones |
| App.Game.ChangeDifficulty | App.js:367-376 | the settings become `ChangeAIDifficulty` of the old ones |
| App.Game.StartGame | App.js:379-382 | play starts on an empty gridSize² board at turn 0 with no verdict (the board effect at lines 225-232) |
| App.Game.Reset | App.js:225-232 | the board effect: an empty gridSize² board, turn 0 and no verdict, with the state kept consistent |
| App.Game.RestartGame | App.js:467-472 | an empty gridSize² board, turn 0, no verdict; screen, player count and settings unchanged |
| App.Game.BackToSelection | App.js:385-390 | back on the selection screen with the verdict cleared |
| App.Game.BackToConfig | App.js:393-398 | back on the configuration screen with the verdict cleared |
| App.Game.HandleMove | App.js:410-440 | the new state is the transition `NextPlay` of the old one with the current player's symbol, and stays consistent |
| App.Game.AIChoice | App.js:330-335 | a move is chosen only while playing, with no verdict, on a computer player's turn, and it is an empty cell; conversely, in that situation a move is always chosen unless the board is full |
| App.Game.AITurn | App.js:330-344 | when the computer chooses a move it is played through the move transition; otherwise nothing changes |
| Original.OriginalLinesAreGridLines | App_Original.js:230-239 | the fixed table equals the generated line list of a 3×3 grid, in the same order |
| Original.OriginalCalculateWinner | App_Original.js:229-252 | scanning the fixed table gives the same verdict as the 3×3 evaluator, on every board |
| Original.TopRowWins | App_Original.js:242-245 | three X's on the top row win for X on line 0, 1, 2 |
| Original.NextRound | App_Original.js:49-55 | a tap on an occupied cell, or on a decided round, changes nothing; otherwise no cell but the one tapped changes, and it receives the mover's mark; the board keeps its size |
| Original.StartRoundValid | App_Original.js:5-8 | the empty nine-cell board with X to move and no verdict is consistent |
| Original.NextRoundValid | App_Original.js:49-55 | every tap keeps the round consistent: X and O moves stay balanced, the stored verdict is the board's, and a winner is the last mover |
| Original.MarksBalanced | App_Original.js:52-54 | X moves next iff both have as many marks, and X is at most one mark ahead of O |
| Original.WinnerIsLastMover | App_Original.js:52-54 | the winner is X iff O is to move, and O iff X is to move |
| Original.XOpens | App_Original.js:5-7 | the first tap of a round writes an X and hands the turn to O |
| Original.NextRoundWritesMark | App_Original.js:49-55 | a legal tap writes X if X is next and O otherwise, changes no other cell and flips the turn |
| Original.Game.constructor | App_Original.js:5-8 | the empty nine-cell board with X to move, and the mount-time effect finding no verdict |
| Original.Game.HandleMove | App_Original.js:49-55 | the new round is the transition `NextRound` of the old one: no change on an occupied cell or decided round; otherwise a mark is written, the turn flips and the board effect (lines 16-31) stores the new verdict |
| Original.Game.Restart | App_Original.js:57-63 | back to nine empty cells with X to move and no verdict |

## Left out

- Rendering, styling, the game-over modal and its animations, and the theme file: these are user interface only.
- Sound, haptics and mute (`playSound`, `toggleMute`, the audio utilities): these are device I/O.
- Back-button handling: this is platform event plumbing.
- The `setTimeout`/`clearTimeout` delays before an AI move and before the modal. The AI move is modelled as an immediate call (`App.Game.AITurn`).
- `Math.random()`: each random choice takes an oracle value `r` and picks candidate `r mod |candidates|`. This captures which moves are possible, not their distribution.
- The image fields of the rosters, and the icon and placeholder-image scripts: these are assets generated by foreign libraries.
- React effect scheduling and batched updates.
  - Each handler is one atomic state change, with the effects it triggers folded in: the board effect on start, the settings effect on a change of player count, and the verdict effect of the first screen.
  - The intermediate renders between a handler and its effect are not modelled.
- App.Game.HandleMove, MultiPlayer.Game.HandleMove, Original.Game.HandleMove: these require the index to be a cell of the board.
  - The screens only call them with indices of rendered cells.
  - With an index past the end, the source's array write would grow the board. That case is not modelled.
- The opponent list used by `App.js`'s own copy of `findBlockingMove` is the roster with settings applied, `Symbols(CurrentPlayers())`. Its symbols are those of the base roster (`PlayerConfig.CreatePlayerConfigSymbols`).
- `App.js` carries its own copies of the AI helpers and of `calculateWinner`, and `App_MultiPlayer.js` its own `calculateWinner`; `App_MultiPlayer.js` has no AI helpers.
  - The two `calculateWinner` copies differ from the one in `src/utils/gameLogic.js` only in not being exported.
  - The AI helpers in `App.js` differ from those in `src/utils/gameLogic.js` only in reading the grid size and the roster from the component instead of taking them as arguments.
  - Each is modelled once, with the grid size and the symbol list as parameters, so the copies agree on every board by construction.
- The roster of `App_MultiPlayer.js` is the same as `BASE_PLAYER_CONFIGS` apart from image paths, so the same constant serves both.
- Original.Game.HandleMove stores the verdict of the 3×3 evaluator, `Verdict(board, 3)`. `Original.OriginalCalculateWinner` proves that this is exactly what the fixed table gives.
- A player setting written without `isAI` reads as `false`, as every reader treats the missing field.
- App.Game.StartGame and MultiPlayer.Game.StartGame require their own screen (configuration, or selection): their buttons are only rendered there, and the state on other screens is not modelled for them.
