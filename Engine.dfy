/**
 * The Silly Shark game engine: a two-slot session whose state record is
 * replaced wholesale by every successful command.
 *
 * The pure step functions (JoinStep, LeaveStep, ...) say what each command
 * does to a `Session`; the class `SillySharkGame` performs the same commands
 * step by step on its fields and is proved against them.
 */
module Engine {
  import opened Common

  /** Height of the playing field; positions are checked against it. */
  const CanvasHeight: int := 720

  /** The skin stored when a player picks none (or the empty string). */
  const DefaultSkin: string := "/SillySharkResources/skins/sillyshark.png"

  /** The broadcast state record of one game. */
  datatype GameState = GameState(
    status: Status,
    player1: Option<PlayerID>,
    player2: Option<PlayerID>,
    ready: map<PlayerID, bool>,
    skins: map<PlayerID, string>,
    spritesData: map<PlayerID, int>,   // vertical position of each sprite
    winner: Option<PlayerID>,
    canvasHeight: int)

  /**
   * The state record together with the inherited list of joined players
   * (`_players`), which setReady, setSkin and setPosition consult.
   */
  datatype Session = Session(state: GameState, players: seq<PlayerID>)

  /** The state a new game starts in. */
  function InitialState(): GameState {
    GameState(WaitingToStart, None, None, map[], map[], map[], None, CanvasHeight)
  }

  predicate Seated(s: GameState, id: PlayerID) {
    s.player1 == Some(id) || s.player2 == Some(id)
  }

  function SeatedSet(s: GameState): set<PlayerID> {
    (if s.player1.Some? then {s.player1.value} else {}) +
    (if s.player2.Some? then {s.player2.value} else {})
  }

  /** The ids whose `ready` value is true. */
  function ReadySet(ready: map<PlayerID, bool>): set<PlayerID> {
    set id | id in ready && ready[id]
  }

  /** The slot that `id` does not occupy. */
  function Other(s: GameState, id: PlayerID): Option<PlayerID> {
    if s.player1 == Some(id) then s.player2 else s.player1
  }

  /** Both slots are taken and both seated players have said they are ready. */
  predicate BothReady(s: GameState) {
    && s.player1.Some? && s.player1.value in s.ready && s.ready[s.player1.value]
    && s.player2.Some? && s.player2.value in s.ready && s.ready[s.player2.value]
  }

  /**
   * What every reachable state satisfies: the canvas height never changes,
   * only the two statuses the engine assigns occur, no player holds both
   * slots, and before a game starts only seated players can be ready.
   */
  ghost predicate ValidState(s: GameState) {
    && s.canvasHeight == CanvasHeight
    && (s.status == WaitingToStart || s.status == InProgress)
    && (s.player1.Some? && s.player2.Some? ==> s.player1 != s.player2)
    && (s.status == WaitingToStart ==> ReadySet(s.ready) <= SeatedSet(s))
  }

  /** The joined-players list holds exactly the seated players, once each. */
  ghost predicate ValidSession(e: Session) {
    && ValidState(e.state)
    && NoDuplicates(e.players)
    && forall id :: id in e.players <==> Seated(e.state, id)
  }

  /** `isReady`: exactly two `ready` values are true. */
  function IsReady(s: GameState): bool {
    |ReadySet(s.ready)| == 2
  }

  /**
   * Before the game starts, `isReady` holds exactly when both slots are
   * taken and both seated players are ready.
   */
  lemma ReadyIffBothReady(s: GameState)
    requires ValidState(s) && s.status == WaitingToStart
    ensures IsReady(s) <==> BothReady(s)
  {
    var r := ReadySet(s.ready);
    if s.player1.Some? && s.player2.Some? {
      var a, b := s.player1.value, s.player2.value;
      assert SeatedSet(s) == {a, b};
      if BothReady(s) {
        assert a in r && b in r;
        assert r == {a, b};
      } else {
        assert a !in r || b !in r;
        assert r <= {a} || r <= {b};
        SubsetOfSingleton(r, if a in r then a else b);
      }
    } else if s.player1.Some? {
      assert r <= {s.player1.value};
      SubsetOfSingleton(r, s.player1.value);
    } else if s.player2.Some? {
      assert r <= {s.player2.value};
      SubsetOfSingleton(r, s.player2.value);
    } else {
      assert r == {};
    }
  }

  lemma SubsetOfSingleton(r: set<PlayerID>, x: PlayerID)
    requires r <= {x}
    ensures |r| <= 1
  {
    if x in r {
      assert r == {x};
    } else {
      assert r == {};
    }
  }

  /** `_join` followed by the inherited push onto `_players`. */
  function JoinStep(e: Session, id: PlayerID): (r: Result<Session, GameError>)
    ensures r.Failure? <==> Seated(e.state, id) || (e.state.player1.Some? && e.state.player2.Some?)
    ensures r.Failure? ==> r.error == if Seated(e.state, id) then PlayerAlreadyInGame else GameFull
    ensures r.Success? ==>
      var s, s' := e.state, r.value.state;
      // player1 is preferred; the other slot is left alone
      && s'.player1 == (if s.player1.None? then Some(id) else s.player1)
      && s'.player2 == (if s.player1.None? then s.player2 else Some(id))
      && SeatedSet(s') == SeatedSet(s) + {id}
      // the newcomer is not ready, and any skin left from an earlier seating is gone
      && s'.ready == s.ready[id := false]
      && id !in s'.skins
      && s'.skins.Keys <= s.skins.Keys
      && (forall k :: k in s.skins && k != id ==> k in s'.skins && s'.skins[k] == s.skins[k])
      && s'.status == s.status && s'.winner == s.winner
      && s'.spritesData == s.spritesData && s'.canvasHeight == s.canvasHeight
      && r.value.players == e.players + [id]
    ensures ValidSession(e) && r.Success? ==> ValidSession(r.value)
  {
    var s := e.state;
    if s.player1 == Some(id) || s.player2 == Some(id) then Failure(PlayerAlreadyInGame)
    else if s.player1.None? then
      Success(Session(s.(skins := s.skins - {id}, player1 := Some(id), ready := s.ready[id := false]),
                      e.players + [id]))
    else if s.player2.None? then
      Success(Session(s.(skins := s.skins - {id}, player2 := Some(id), ready := s.ready[id := false]),
                      e.players + [id]))
    else Failure(GameFull)
  }

  /** `_leave` followed by the inherited removal from `_players`. */
  function LeaveStep(e: Session, id: PlayerID): (r: Result<Session, GameError>)
    ensures r.Failure? <==> !Seated(e.state, id)
    ensures r.Failure? ==> r.error == PlayerNotInGame
    ensures r.Success? ==> r.value.players == FilterOut(e.players, [id])
    ensures ValidState(e.state) && r.Success? ==>
      var s, s' := e.state, r.value.state;
      && SeatedSet(s') == SeatedSet(s) - {id}
      // the leaver's own slot is cleared; the other player keeps theirs
      && s'.player1 == (if s.player1 == Some(id) then None else s.player1)
      && s'.player2 == (if s.player2 == Some(id) then None else s.player2)
      && s'.skins == s.skins && s'.canvasHeight == s.canvasHeight
    // before the game: the player is marked not ready (the entry is kept)
    // and every position is dropped
    ensures ValidState(e.state) && r.Success? && e.state.status == WaitingToStart ==>
      var s, s' := e.state, r.value.state;
      && s'.status == WaitingToStart && s'.winner == s.winner
      && s'.ready == s.ready[id := false]
      && s'.spritesData == map[]
    // during the game: the remaining player wins by forfeit; once nobody is
    // left the session is reset
    ensures ValidState(e.state) && r.Success? && e.state.status == InProgress ==>
      var s, s' := e.state, r.value.state;
      && s'.spritesData == s.spritesData
      && if Other(s, id).Some? then
           s'.status == InProgress && s'.winner == Other(s, id) && s'.ready == s.ready
         else
           s'.status == WaitingToStart && s'.winner == None && s'.ready == map[]
    ensures ValidSession(e) && r.Success? ==> ValidSession(r.value)
  {
    var s := e.state;
    if s.player1 != Some(id) && s.player2 != Some(id) then Failure(PlayerNotInGame)
    else
      var s' :=
        if s.status == WaitingToStart then
          if s.player1 == Some(id) then
            s.(player1 := None, ready := s.ready[id := false], spritesData := map[])
          else
            s.(player2 := None, ready := s.ready[id := false], spritesData := map[])
        else if s.status == InProgress then
          var a := if s.player1 == Some(id) then s.(player1 := None, winner := s.player2) else s;
          var b := if a.player2 == Some(id) then a.(player2 := None, winner := a.player1) else a;
          if b.player1.None? && b.player2.None? then
            b.(status := WaitingToStart, winner := None, ready := map[])
          else b
        else s;
      Success(Session(s', FilterOut(e.players, [id])))
  }

  /** `setReady`: only a joined player may say it is ready. */
  function SetReadyStep(e: Session, id: PlayerID): (r: Result<Session, GameError>)
    ensures r.Failure? <==> id !in e.players
    ensures r.Failure? ==> r.error == PlayerNotInGame
    ensures r.Success? ==> r.value == Session(e.state.(ready := e.state.ready[id := true]), e.players)
    ensures r.Success? ==> id in ReadySet(r.value.state.ready)
    ensures ValidSession(e) && r.Success? ==> ValidSession(r.value)
  {
    if id !in e.players then Failure(PlayerNotInGame)
    else Success(e.(state := e.state.(ready := e.state.ready[id := true])))
  }

  /** Saying ready twice is the same as saying it once. */
  lemma SetReadyIdempotent(e: Session, id: PlayerID)
    requires SetReadyStep(e, id).Success?
    ensures SetReadyStep(SetReadyStep(e, id).value, id) == SetReadyStep(e, id)
  {
    var ready := e.state.ready[id := true];
    assert ready[id := true] == ready;
  }

  /** `setSkin`: a missing or empty skin stands for the default skin. */
  function SetSkinStep(e: Session, id: PlayerID, skin: Option<string>): (r: Result<Session, GameError>)
    ensures r.Failure? <==> id !in e.players
    ensures r.Failure? ==> r.error == PlayerNotInGame
    ensures r.Success? ==>
      && r.value.state.skins.Keys == e.state.skins.Keys + {id}
      && r.value.state.skins[id] == (if skin.None? || skin.value == "" then DefaultSkin else skin.value)
      && (forall k :: k in e.state.skins && k != id ==> r.value.state.skins[k] == e.state.skins[k])
      && r.value == Session(e.state.(skins := r.value.state.skins), e.players)
    ensures ValidSession(e) && r.Success? ==> ValidSession(r.value)
  {
    if id !in e.players then Failure(PlayerNotInGame)
    else
      var chosen := if skin.None? || skin.value == "" then DefaultSkin else skin.value;
      Success(e.(state := e.state.(skins := e.state.skins[id := chosen])))
  }

  /** `setPosition`: membership is checked first, then the bounds (both inclusive). */
  function SetPositionStep(e: Session, id: PlayerID, positionY: int): (r: Result<Session, GameError>)
    ensures r.Success? <==> id in e.players && 0 <= positionY <= e.state.canvasHeight
    ensures r.Failure? ==> r.error == if id !in e.players then PlayerNotInGame else InvalidMove
    ensures r.Success? ==>
      && r.value.state.spritesData.Keys == e.state.spritesData.Keys + {id}
      && r.value.state.spritesData[id] == positionY
      && (forall k :: k in e.state.spritesData && k != id ==>
            r.value.state.spritesData[k] == e.state.spritesData[k])
      && r.value == Session(e.state.(spritesData := r.value.state.spritesData), e.players)
    ensures ValidSession(e) && r.Success? ==> ValidSession(r.value)
  {
    if id !in e.players then Failure(PlayerNotInGame)
    else if positionY < 0 || positionY > e.state.canvasHeight then Failure(InvalidMove)
    else Success(e.(state := e.state.(spritesData := e.state.spritesData[id := positionY])))
  }

  /** `startGame`: refuses a running game, then an unready one. */
  function StartStep(e: Session): (r: Result<Session, GameError>)
    ensures r.Failure? <==> e.state.status == InProgress || !IsReady(e.state)
    ensures r.Failure? ==>
      r.error == if e.state.status == InProgress then GameAlreadyInProgress else BothPlayersReady
    ensures r.Success? && e.state.status == WaitingToStart ==>
      r.value == Session(e.state.(status := InProgress), e.players)
    ensures r.Success? && e.state.status != WaitingToStart ==> r.value == e
    ensures ValidSession(e) && r.Success? ==> r.value.state.status == InProgress
    ensures ValidSession(e) && r.Success? ==> ValidSession(r.value)
  {
    if e.state.status == InProgress then Failure(GameAlreadyInProgress)
    else if !IsReady(e.state) then Failure(BothPlayersReady)
    else
      if e.state.status == WaitingToStart then Success(e.(state := e.state.(status := InProgress)))
      else Success(e)
  }

  /** A game only starts with both seats taken and both seated players ready. */
  lemma StartNeedsBothReady(e: Session)
    requires ValidSession(e) && StartStep(e).Success?
    ensures BothReady(e.state)
  {
    ReadyIffBothReady(e.state);
  }

  /**
   * `checkForWinner(playerId)`: the player reporting `playerId` has lost, so
   * the other seated player wins. A winner once set is kept.
   */
  function WinnerStep(e: Session, playerId: PlayerID): (r: Result<Session, GameError>)
    ensures r.Failure? <==>
      e.state.player1.None? || e.state.player2.None? ||
      (e.state.winner.None? && !Seated(e.state, playerId))
    ensures r.Failure? ==>
      r.error == if e.state.player1.None? || e.state.player2.None? then BothPlayersReady else PlayerNotInGame
    // sticky: an existing winner is never replaced, whatever id is reported
    ensures r.Success? && e.state.winner.Some? ==> r.value == e
    ensures r.Success? && e.state.winner.None? ==>
      && r.value == Session(e.state.(winner := r.value.state.winner), e.players)
      && r.value.state.winner == Other(e.state, playerId)
    ensures ValidState(e.state) && r.Success? && e.state.winner.None? ==>
      r.value.state.winner.Some? && r.value.state.winner.value != playerId
    ensures ValidSession(e) && r.Success? ==> ValidSession(r.value)
  {
    var s := e.state;
    if s.player1.None? || s.player2.None? then Failure(BothPlayersReady)
    else if s.winner.Some? then Success(e)
    else if playerId == s.player1.value then Success(e.(state := s.(winner := s.player2)))
    else if playerId == s.player2.value then Success(e.(state := s.(winner := s.player1)))
    else Failure(PlayerNotInGame)
  }

  /** The method outcome `r` and new session `after` are those `step` prescribes for `before`. */
  predicate Follows(r: Outcome<GameError>, before: Session, after: Session, step: Result<Session, GameError>) {
    match step
    case Success(e) => r == Pass && after == e
    case Failure(err) => r == Fail(err) && after == before
  }

  /** One game instance; each method validates and then replaces `state`. */
  class SillySharkGame {
    const id: GameID
    var state: GameState
    var players: seq<PlayerID>

    function Snapshot(): Session
      reads this
    {
      Session(state, players)
    }

    ghost predicate Valid()
      reads this
    {
      ValidSession(Snapshot())
    }

    constructor (id: GameID)
      ensures this.id == id
      ensures state == InitialState() && players == []
      ensures Valid()
    {
      this.id := id;
      state := InitialState();
      players := [];
    }

    /** `join`: take player1 if free, else player2. */
    method Join(player: PlayerID) returns (r: Outcome<GameError>)
      requires Valid()
      modifies this
      ensures Valid()
      ensures Follows(r, old(Snapshot()), Snapshot(), JoinStep(old(Snapshot()), player))
    {
      if state.player1 == Some(player) || state.player2 == Some(player) {
        return Fail(PlayerAlreadyInGame);
      }
      var updatedSkins := state.skins - {player};
      if state.player1.None? {
        state := state.(skins := updatedSkins, player1 := Some(player), ready := state.ready[player := false]);
      } else if state.player2.None? {
        state := state.(skins := updatedSkins, player2 := Some(player), ready := state.ready[player := false]);
      } else {
        return Fail(GameFull);
      }
      players := players + [player];
      assert Snapshot() == JoinStep(old(Snapshot()), player).value;
      return Pass;
    }

    /** `leave`: behaviour depends on whether the game has started. */
    method Leave(player: PlayerID) returns (r: Outcome<GameError>)
      requires Valid()
      modifies this
      ensures Valid()
      ensures Follows(r, old(Snapshot()), Snapshot(), LeaveStep(old(Snapshot()), player))
    {
      if state.player1 != Some(player) && state.player2 != Some(player) {
        return Fail(PlayerNotInGame);
      }
      if state.status == WaitingToStart {
        if state.player1 == Some(player) {
          state := state.(player1 := None, ready := state.ready[player := false], spritesData := map[]);
        } else {
          state := state.(player2 := None, ready := state.ready[player := false], spritesData := map[]);
        }
      } else if state.status == InProgress {
        if state.player1 == Some(player) {
          state := state.(player1 := None, winner := state.player2);
        }
        if state.player2 == Some(player) {
          state := state.(player2 := None, winner := state.player1);
        }
        if state.player1.None? && state.player2.None? {
          state := state.(status := WaitingToStart, winner := None, ready := map[]);
        }
      }
      players := FilterOut(players, [player]);
      return Pass;
    }

    method SetReady(player: PlayerID) returns (r: Outcome<GameError>)
      requires Valid()
      modifies this
      ensures Valid()
      ensures Follows(r, old(Snapshot()), Snapshot(), SetReadyStep(old(Snapshot()), player))
    {
      if player !in players {
        return Fail(PlayerNotInGame);
      }
      state := state.(ready := state.ready[player := true]);
      return Pass;
    }

    method SetSkin(player: PlayerID, skin: Option<string>) returns (r: Outcome<GameError>)
      requires Valid()
      modifies this
      ensures Valid()
      ensures Follows(r, old(Snapshot()), Snapshot(), SetSkinStep(old(Snapshot()), player, skin))
    {
      if player !in players {
        return Fail(PlayerNotInGame);
      }
      var chosen := if skin.None? || skin.value == "" then DefaultSkin else skin.value;
      state := state.(skins := state.skins[player := chosen]);
      return Pass;
    }

    method SetPosition(player: PlayerID, positionY: int) returns (r: Outcome<GameError>)
      requires Valid()
      modifies this
      ensures Valid()
      ensures Follows(r, old(Snapshot()), Snapshot(), SetPositionStep(old(Snapshot()), player, positionY))
    {
      if player !in players {
        return Fail(PlayerNotInGame);
      }
      if positionY < 0 || positionY > state.canvasHeight {
        return Fail(InvalidMove);
      }
      state := state.(spritesData := state.spritesData[player := positionY]);
      return Pass;
    }

    method StartGame() returns (r: Outcome<GameError>)
      requires Valid()
      modifies this
      ensures Valid()
      ensures Follows(r, old(Snapshot()), Snapshot(), StartStep(old(Snapshot())))
    {
      if state.status == InProgress {
        return Fail(GameAlreadyInProgress);
      }
      if !IsReady(state) {
        return Fail(BothPlayersReady);
      }
      if state.status == WaitingToStart {
        state := state.(status := InProgress);
      }
      return Pass;
    }

    /** `checkForWinner`: updates `winner` in place. */
    method CheckForWinner(playerId: PlayerID) returns (r: Outcome<GameError>)
      requires Valid()
      modifies this
      ensures Valid()
      ensures Follows(r, old(Snapshot()), Snapshot(), WinnerStep(old(Snapshot()), playerId))
    {
      if state.player1.None? || state.player2.None? {
        return Fail(BothPlayersReady);
      }
      if state.winner.Some? {
        return Pass;
      }
      if playerId == state.player1.value {
        state := state.(winner := state.player2);
      } else if playerId == state.player2.value {
        state := state.(winner := state.player1);
      } else {
        return Fail(PlayerNotInGame);
      }
      return Pass;
    }
  }
}
