# Silly Shark — a Dafny model of the game session core

Silly Shark is a two-player game played inside an interactable area of a
virtual town. The server side has three parts:

- a game engine (`SillySharkGame`) that owns one session state record: two
  player slots, ready flags, skins, sprite positions, the winner and the
  status;
- the game area (`SillySharkGameArea`) that holds at most one such game,
  routes each player's command to it, checks the game id the command names,
  and announces the area as changed after every command that succeeds;
- the per-player record (`SillySharkPlayer`) that remembers a high score.

On the client, the `GameAreaController` keeps the last area model it received,
the resolved list of players, the area's occupants and the id of the game
instance it takes part in. It turns every new model into a short sequence of
events: `playersChange`, `gameUpdated` and `gameEnd`.

The project has five modules:

- `Common` holds the identifiers, `Option`/`Result`/`Outcome`, the status and
  error kinds, and the order-preserving `FilterOut`.
- `Engine` describes each engine command as a pure step function on a
  `Session`, which is the state record plus the inherited list of joined
  players. It also has the imperative class `SillySharkGame`, whose methods
  change `state` and `players` in place and are proved to do what the step
  functions prescribe.
- `Host` describes `handleCommand` as the function `Handle` on an abstract
  `AreaState`, which is the optional game plus the number of announcements.
  The class `SillySharkGameArea` performs the same command on a live
  `SillySharkGame` object and is proved against `Handle`.
- `Client` is the controller class. The events it would emit are returned
  as sequences, in emission order.
- `Scores` is the player's high score.

Throughout the model, every state the engine can reach satisfies
`Engine.ValidSession`:

- the canvas height stays 720;
- only `WaitingToStart` and `InProgress` occur;
- no player holds both slots;
- before the game, only seated players are ready;
- the joined-players list holds exactly the seated players, once each.

## Model

| member | source | states |
|---|---|---|
| Engine.SillySharkGame.constructor | townService/src/town/games/SillySharkGame.ts:14-21 | a new game waits to start with no players, no ready flags, skins or positions, no winner and a canvas height of 720, and satisfies the session invariant |
| Engine.IsReady | townService/src/town/games/SillySharkGame.ts:23-26 | `isReady`: the number of players whose ready value is true is exactly two; what this means for the seats is stated by Engine.ReadyIffBothReady |
| Engine.ReadyIffBothReady | townService/src/town/games/SillySharkGame.ts:23-26 | before a game starts, "exactly two ready flags are true" holds exactly when both slots are taken and both seated players are ready |
| Engine.StartStep | townService/src/town/games/SillySharkGame.ts:28-45 | starting fails with GameAlreadyInProgress when the game runs, and otherwise with BothPlayersReady unless it is ready; success switches a waiting game to InProgress and changes nothing else; the invariant is kept |
| Engine.StartNeedsBothReady | townService/src/town/games/SillySharkGame.ts:28-45 | a game that starts successfully has both slots filled and both players ready |
| Engine.SillySharkGame.StartGame | townService/src/town/games/SillySharkGame.ts:28-45 | the in-place start gives the outcome and new state that StartStep prescribes, and keeps the invariant |
| Engine.SetReadyStep | townService/src/town/games/SillySharkGame.ts:47-60 | only a joined player may set ready, otherwise PlayerNotInGame; success sets that player's flag to true and changes nothing else; the invariant is kept |
| Engine.SetReadyIdempotent | townService/src/town/games/SillySharkGame.ts:47-60 | setting ready a second time leaves the session as the first time did |
| Engine.SillySharkGame.SetReady | townService/src/town/games/SillySharkGame.ts:54-60 | the in-place update gives the outcome and new state that SetReadyStep prescribes, and keeps the invariant |
| Engine.SetSkinStep | townService/src/town/games/SillySharkGame.ts:62-77 | only a joined player may pick a skin, otherwise PlayerNotInGame; the stored skin is the chosen one, or the default skin when none or the empty one is given; other players' skins and all other fields are unchanged |
| Engine.SillySharkGame.SetSkin | townService/src/town/games/SillySharkGame.ts:72-77 | the in-place update gives the outcome and new state that SetSkinStep prescribes, and keeps the invariant |
| Engine.SetPositionStep | townService/src/town/games/SillySharkGame.ts:79-98 | a position is accepted exactly when the player has joined and 0 <= y <= canvas height; membership is checked first (PlayerNotInGame) and then the bounds (InvalidMove); success records y for that player only |
| Engine.SillySharkGame.SetPosition | townService/src/town/games/SillySharkGame.ts:79-98 | the in-place update gives the outcome and new state that SetPositionStep prescribes, and keeps the invariant |
| Engine.WinnerStep | townService/src/town/games/SillySharkGame.ts:100-126 | fails with BothPlayersReady unless both slots are taken; a winner once set is never replaced; otherwise the winner becomes the opponent of the reported player, and a winner is never the reporting player; an unseated reporter gives PlayerNotInGame |
| Engine.SillySharkGame.CheckForWinner | townService/src/town/games/SillySharkGame.ts:100-126 | the in-place update gives the outcome and new state that WinnerStep prescribes, and keeps the invariant |
| Engine.JoinStep | townService/src/town/games/SillySharkGame.ts:135-158 | joining fails exactly when the player is already seated (PlayerAlreadyInGame) or both slots are taken (GameFull); otherwise the player takes slot 1 if it is free, else slot 2, is marked not ready, loses any old skin, is appended to the players list, and nothing else changes; the invariant is kept |
| Engine.SillySharkGame.Join | townService/src/town/games/SillySharkGame.ts:135-158 | the in-place join gives the outcome and new state that JoinStep prescribes, and keeps the invariant |
| Engine.LeaveStep | townService/src/town/games/SillySharkGame.ts:165-212 | leaving fails exactly when the player is not seated; the leaver's own slot is cleared while the other player keeps theirs, and the leaver is removed from the players list; before the game the flag is set to false and all positions are dropped; during the game the remaining player wins by forfeit, and once both have left the session returns to waiting with no winner and no ready flags; the invariant is kept |
| Engine.SillySharkGame.Leave | townService/src/town/games/SillySharkGame.ts:165-212 | the in-place leave gives the outcome and new state that LeaveStep prescribes, and keeps the invariant |
| Host.SillySharkGameArea.constructor | townService/src/town/games/SillySharkGameArea.ts:21-28 | a new area holds no game (the inherited game slot starts absent, as the JoinGame branch expects) and has announced nothing |
| Host.SillySharkGameArea.StateUpdated | townService/src/town/games/SillySharkGameArea.ts:26-28 | the area announces one more change |
| Host.Delegate | townService/src/town/games/SillySharkGameArea.ts:70-161 | a routed command runs the engine step for its sender: LeaveGame is LeaveStep, SetReady is SetReadyStep, CheckForWinner is WinnerStep on the sender's id, SetSkin is SetSkinStep with the command's skin, RenderSprite is SetPositionStep with the command's position; StartGame succeeds exactly when the game is ready, fails with BothPlayersReady otherwise, starts a waiting game and leaves a running one unchanged; engine errors never include the host's own error kinds; the invariant is kept |
| Host.Handle | townService/src/town/games/SillySharkGameArea.ts:54-164 | a failed command changes nothing and announces nothing; a success announces exactly once; JoinGame creates a game with the fresh id only when there is none, seats the sender in it exactly as JoinStep does (the engine's error reaching the caller, its new session installed on success), and answers the id of the game joined; a command for the live game succeeds exactly when Delegate does, fails with Delegate's error, and on success installs Delegate's new session and answers nothing; the live game is never replaced; a command naming a game fails with GameNotInProgress without a game and with GameIdMismatch for another id; an unknown command gives InvalidCommand; the invariant is kept |
| Host.SillySharkGameArea.HandleCommand | townService/src/town/games/SillySharkGameArea.ts:54-164 | the command, run on the live game object, gives the answer and the new area that Handle prescribes; an existing game object is kept, and a created one is fresh |
| Host.EmitsCountSuccesses | townService/src/town/games/SillySharkGameArea.ts:26-28 | over any run of commands, the number of announcements equals the number of successful commands, and the area stays valid |
| Host.ActsForSender | townService/src/town/games/SillySharkGameArea.ts:82-161 | the player id carried inside SetReady, CheckForWinner, SetSkin and RenderSprite makes no difference to the answer or the new area |
| Host.SenderIsActedFor | townService/src/town/games/SillySharkGameArea.ts:59-161 | after a successful command the sender is seated (JoinGame), unseated and off the players list (LeaveGame), ready (SetReady), has a skin (SetSkin), has the sent position (RenderSprite), or, when no winner was set, has made the opponent the winner (CheckForWinner) |
| Client.GameAreaController.constructor | frontend/src/classes/interactable/GameAreaController.ts:36-45 | the controller stores its id and model, has no occupants and no instance id, and its players are the model's game players resolved through the directory, or none without a game |
| Client.GameAreaController.Resolve | frontend/src/classes/interactable/GameAreaController.ts:122-123 | the resolved players list has one entry per player id of the model's game, in order, and is empty without a game |
| Client.GameAreaController.SetOccupants | frontend/src/classes/interactable/GameAreaController.ts:63-71 | a new occupants list is stored and announced once exactly when it differs in length or in members; a reordering of the same occupants is ignored and announces nothing |
| Client.Differs | frontend/src/classes/interactable/GameAreaController.ts:64-67 | the change test of the occupants setter and of the corrected players update: the lengths differ or the two lists do not have the same members; Client.DiffersIffNotPermutation shows it is exactly "not a permutation" for lists without repetitions |
| Client.PermutationDoesNotDiffer | frontend/src/classes/interactable/GameAreaController.ts:64-67 | the change test never reports a reordering of a list as a change |
| Client.DiffersIffNotPermutation | frontend/src/classes/interactable/GameAreaController.ts:64-67 | for lists without repetitions, the change test holds exactly when the two lists are not permutations of each other |
| Common.FilterOut | frontend/src/classes/interactable/GameAreaController.ts:77-79 | the kept elements are exactly those of the list that are not in the dropped list; it is no longer than the list and keeps it free of repetitions |
| Common.FilterOutAppend | frontend/src/classes/interactable/GameAreaController.ts:77-79 | filtering a concatenation is concatenating the filtered parts, so the filter keeps the order of what it keeps |
| Client.GameAreaController.Observers | frontend/src/classes/interactable/GameAreaController.ts:77-79 | the observers are exactly the occupants that are not players; there are no more observers than occupants, and no repetitions when the occupants have none |
| Client.GameAreaController.IsEmpty | frontend/src/classes/interactable/GameAreaController.ts:84-86 | the area is empty exactly when it has no occupants, and an empty area has no observers |
| Client.GameAreaController.JoinGame | frontend/src/classes/interactable/GameAreaController.ts:97-102 | after the server answers, the instance id is the game id it returned |
| Client.GameAreaController.LeaveGame | frontend/src/classes/interactable/GameAreaController.ts:107-115 | a LeaveGame command for the current instance is sent exactly when there is an instance id |
| Client.UpdateEvents | frontend/src/classes/interactable/GameAreaController.ts:131-152 | one update emits gameUpdated exactly once, playersChange with the new players exactly when they changed and before gameUpdated, gameEnd exactly when the game ended and last, and nothing else; each of playersChange and gameEnd occurs at most once, as the length of the sequence is fixed by the two flags |
| Client.GameAreaController.UpdateFrom | frontend/src/classes/interactable/GameAreaController.ts:117-153 | the players are replaced and announced exactly when the resolved new players differ from the cached ones; the events are those UpdateEvents gives; the model is replaced; the instance id becomes the new game's id and is kept without a game; a reordering of the same players leaves the cache alone |
| Client.GameEnding | frontend/src/classes/interactable/GameAreaController.ts:118-121 | `gameEnding`: the old model was a running single-player game, or a running multiplayer game that the new model shows as over; it only holds when the old model had a game, and Client.NoGameEndForSillyShark shows it never holds for this engine |
| Client.NoGameEndForSillyShark | frontend/src/classes/interactable/GameAreaController.ts:118-121 | for models of valid Silly Shark areas, the game-ending test never holds, because that engine only reports waiting or in progress |
| Client.AsWrittenReportsEmptyPlayers | frontend/src/classes/interactable/GameAreaController.ts:131-134 | with no game in the new model, the players test as written reports a change even when the cached and new player lists are both empty |
| Client.AsWrittenAgreesWithGame | frontend/src/classes/interactable/GameAreaController.ts:131-134 | whenever the new model has a game, the players test as written agrees with the corrected test |
| Scores.SillySharkPlayer.constructor | townService/src/town/games/SillySharkPlayer.ts:11-20 | a new player has high score 0 and sprite height and width 0 |
| Scores.SillySharkPlayer.UpdateHighScore | townService/src/town/games/SillySharkPlayer.ts:38-42 | the high score becomes the larger of the old high score and the new score; the sprite size is a constant 0, so no update changes it |
| Scores.HighScoreAfter | townService/src/town/games/SillySharkPlayer.ts:38-42 | after a series of updates, the high score is at least the starting one and at least every reported score, and is one of them |
| Scores.HighScoreMonotone | townService/src/town/games/SillySharkPlayer.ts:38-42 | updates compose, and later updates never lower the high score |
| Scores.LowScoresAreNoOps | townService/src/town/games/SillySharkPlayer.ts:38-42 | scores that do not beat the current high score leave it unchanged |

## Left out

- Network I/O and `async`. The client's `joinGame` is modelled from the moment the server's answer `{ gameID }` arrives. Its `leaveGame` returns the command it would send. Errors raised while sending are not modelled.
- Event emitters. Every `emit` becomes an element of a returned event sequence. The server's `_emitAreaChanged` becomes a counter.
- The town's player directory (`getPlayer`) is a total function given to the controller. `_.xor` compares the controller objects the directory returns, and the model compares them as values.
- The base classes `Game`, `GameArea` and `Player` are not part of this model. The model assumes that `join` calls `_join` and then appends to `_players`, and that `leave` calls `_leave` and then removes the player from `_players`. It also assumes that a base constructor gives each game a fresh id; that id is the parameter `newGameID` of `Handle`.
- The trivial getters (`id`, `players`, `occupants`, `highScore`, `playerHeight`, `playerWidth`), `history` and `toInteractableAreaModel` return a field unchanged. They are the fields themselves. `getType` returns the constant area kind `'SillySharkArea'`, which the model has no use for.
- The branch of `_updateFrom` that tests `!newPlayers` can never run, because the mapped list is always an array. It is not modelled.
- The event list declares `gameStart`, but the controller never emits it, so `Client.GameEvent` has no such event.
- Numbers are mathematical integers. Fractional or non-finite positions and scores are not modelled.
- The state record's `skins` starts as `undefined` in the source and as an empty map here. Both are read the same way, because spreading `undefined` gives an empty object.
- Player ids and game instance ids are assumed non-empty strings, so a test for a present id (JavaScript truthiness) is the same as `Option.Some?`. This covers the seat tests of the engine and the instance-id test of the client's `leaveGame`.
- The engine throws a plain `Error` for GameAlreadyInProgress and an `InvalidParametersError` for everything else. The model keeps only the error kind.
- The `SillySharkPlayer` constructor's user name and town emitter belong to the base player and are not modelled.
- The React components, the canvas and render loop, obstacles, skin selection and the `SillySharkAreaController` wrapper are presentation code and are not part of this model. The tests' calls to `startSinglePlayer`, `updateScore` and the `lost`/`score` fields name members that the engine does not have, so they are not modelled.
- Engine.LeaveStep: its clauses about the new state's fields are stated for valid states only, which are the only states the engine reaches. For a status other than WaitingToStart or InProgress, the source removes the player from `_players` and keeps the state record. This is what the body does, but no clause states it.
- Client.GameAreaController.UpdateFrom: uses the corrected players test from the finding below, not the test as written.

## Findings

| source | as written | input that shows it | evidently intended | confidence | as-written member | corrected member |
|---|---|---|---|---|---|---|
| frontend/src/classes/interactable/GameAreaController.ts:131-134 | the players test compares the cached list's length with the new game's `players.length`; without a game the right-hand side is `undefined`, so the comparison is always true | a model with no game, received while the cached players list is already empty, emits `playersChange([])` again on every update | announce a players change only when the resolved new list differs from the cached one in length or members | not executed | Client.PlayersChangedAsWritten (shown by Client.AsWrittenReportsEmptyPlayers) | Client.Differs (proved by Client.DiffersIffNotPermutation, used by Client.GameAreaController.UpdateFrom) |
