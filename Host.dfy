/**
 * The Silly Shark game area: it owns at most one game, routes each player's
 * command to it and announces the area as changed after every command that
 * succeeds. The announcement (`_emitAreaChanged`) is modelled as a counter.
 */
module Host {
  import opened Common
  import opened Engine

  /** The commands a client can send; `Unsupported` stands for any other tag. */
  datatype Command =
    | JoinGame
    | LeaveGame(gameID: GameID)
    | SetReady(gameID: GameID, playerID: PlayerID)
    | CheckForWinner(gameID: GameID, playerID: PlayerID)
    | SetSkin(gameID: GameID, playerID: PlayerID, skin: Option<string>)
    | StartGame(gameID: GameID)
    | RenderSprite(gameID: GameID, playerID: PlayerID, positionY: int)
    | Unsupported(kind: string)

  /** `{ gameID }` for JoinGame, `undefined` for the other commands. */
  datatype Response = Joined(gameID: GameID) | Done

  /** A live game: its id and its session. */
  datatype Hosted = Hosted(id: GameID, session: Session)

  /** What the area holds: the optional game and how often it announced a change. */
  datatype AreaState = AreaState(game: Option<Hosted>, emits: nat)

  /** The answer to one command and the area afterwards. */
  datatype Step = Step(result: Result<Response, GameError>, after: AreaState)

  ghost predicate ValidArea(a: AreaState) {
    a.game.Some? ==> ValidSession(a.game.value.session)
  }

  /** Commands that name a game id: all but JoinGame and unknown ones. */
  predicate Targeted(command: Command) {
    !command.JoinGame? && !command.Unsupported?
  }

  /**
   * The engine call a targeted command makes, on behalf of the player who
   * sent it (the `playerID` inside the command is not consulted).
   */
  function Delegate(command: Command, player: PlayerID, e: Session): (r: Result<Session, GameError>)
    requires Targeted(command)
    // StartGame: unready is refused; ready in a running game changes nothing
    ensures command.StartGame? ==> (r.Success? <==> IsReady(e.state))
    ensures command.StartGame? && r.Failure? ==> r.error == BothPlayersReady
    ensures command.StartGame? && r.Success? && e.state.status == InProgress ==> r.value == e
    ensures command.StartGame? && r.Success? && e.state.status == WaitingToStart ==>
      r.value == Session(e.state.(status := InProgress), e.players)
    // every other command runs the engine's step for the sender
    ensures command.LeaveGame? ==> r == LeaveStep(e, player)
    ensures command.SetReady? ==> r == SetReadyStep(e, player)
    ensures command.CheckForWinner? ==> r == WinnerStep(e, player)
    ensures command.SetSkin? ==> r == SetSkinStep(e, player, command.skin)
    ensures command.RenderSprite? ==> r == SetPositionStep(e, player, command.positionY)
    ensures r.Failure? ==> r.error != GameNotInProgress && r.error != GameIdMismatch && r.error != InvalidCommand
    ensures ValidSession(e) && r.Success? ==> ValidSession(r.value)
  {
    match command
    case LeaveGame(_) => LeaveStep(e, player)
    case SetReady(_, _) => SetReadyStep(e, player)
    case CheckForWinner(_, _) => WinnerStep(e, player)
    case SetSkin(_, _, skin) => SetSkinStep(e, player, skin)
    case StartGame(_) =>
      if !IsReady(e.state) then Failure(BothPlayersReady)
      else if e.state.status == WaitingToStart then StartStep(e)
      else Success(e)
    case RenderSprite(_, _, positionY) => SetPositionStep(e, player, positionY)
  }

  /** `handleCommand`, with `newGameID` the id a newly created game receives. */
  function Handle(a: AreaState, command: Command, player: PlayerID, newGameID: GameID): (o: Step)
    // a failure changes nothing and announces nothing
    ensures o.result.Failure? ==> o.after == a
    // a success announces exactly once
    ensures o.result.Success? ==> o.after.emits == a.emits + 1 && o.after.game.Some?
    // JoinGame creates a game only when there is none and always answers its id
    ensures command.JoinGame? && a.game.None? ==>
      o.result == Success(Joined(newGameID)) && o.after.game.value.id == newGameID
    ensures command.JoinGame? && a.game.Some? && o.result.Success? ==>
      o.result.value == Joined(a.game.value.id)
    // the live game is never replaced
    ensures a.game.Some? ==> o.after.game.Some? && o.after.game.value.id == a.game.value.id
    // targeted commands need a live game with a matching id
    ensures Targeted(command) && a.game.None? ==> o.result == Failure(GameNotInProgress)
    ensures Targeted(command) && a.game.Some? && command.gameID != a.game.value.id ==>
      o.result == Failure(GameIdMismatch)
    ensures command.Unsupported? ==> o.result == Failure(InvalidCommand)
    // JoinGame seats the sender in the live game, or in a fresh one; the engine's error reaches the caller
    ensures command.JoinGame? ==>
      var j := JoinStep(if a.game.Some? then a.game.value.session else Session(InitialState(), []), player);
      && (o.result.Success? <==> j.Success?)
      && (j.Failure? ==> o.result.error == j.error)
      && (j.Success? ==> o.after.game.value.session == j.value)
    // a command for the live game has the engine's outcome: its error, or its new session installed
    ensures Targeted(command) && a.game.Some? && command.gameID == a.game.value.id ==>
      var d := Delegate(command, player, a.game.value.session);
      && (o.result.Success? <==> d.Success?)
      && (d.Failure? ==> o.result.error == d.error)
      && (d.Success? ==> o.result == Success(Done) && o.after.game.value.session == d.value)
    ensures ValidArea(a) ==> ValidArea(o.after)
  {
    match command
    case JoinGame =>
      var h := if a.game.Some? then a.game.value else Hosted(newGameID, Session(InitialState(), []));
      (match JoinStep(h.session, player)
       case Success(e) => Step(Success(Joined(h.id)), AreaState(Some(h.(session := e)), a.emits + 1))
       case Failure(err) => Step(Failure(err), a))
    case Unsupported(_) => Step(Failure(InvalidCommand), a)
    case _ =>
      if a.game.None? then Step(Failure(GameNotInProgress), a)
      else if a.game.value.id != command.gameID then Step(Failure(GameIdMismatch), a)
      else
        match Delegate(command, player, a.game.value.session)
        case Success(e) => Step(Success(Done), AreaState(Some(a.game.value.(session := e)), a.emits + 1))
        case Failure(err) => Step(Failure(err), a)
  }

  /** The area after a run of commands, each sent by `senders[i]`. */
  function HandleAll(a: AreaState, commands: seq<Command>, senders: seq<PlayerID>, ids: seq<GameID>): AreaState
    requires |commands| == |senders| == |ids|
    decreases |commands|
  {
    if commands == [] then a
    else HandleAll(Handle(a, commands[0], senders[0], ids[0]).after, commands[1..], senders[1..], ids[1..])
  }

  /** How many commands of a run succeed. */
  function Successes(a: AreaState, commands: seq<Command>, senders: seq<PlayerID>, ids: seq<GameID>): nat
    requires |commands| == |senders| == |ids|
    decreases |commands|
  {
    if commands == [] then 0
    else
      var o := Handle(a, commands[0], senders[0], ids[0]);
      (if o.result.Success? then 1 else 0) + Successes(o.after, commands[1..], senders[1..], ids[1..])
  }

  /**
   * Over any run the area announces exactly once per successful command and
   * stays valid.
   */
  lemma {:induction false} EmitsCountSuccesses(a: AreaState, commands: seq<Command>, senders: seq<PlayerID>, ids: seq<GameID>)
    requires |commands| == |senders| == |ids|
    requires ValidArea(a)
    ensures HandleAll(a, commands, senders, ids).emits == a.emits + Successes(a, commands, senders, ids)
    ensures ValidArea(HandleAll(a, commands, senders, ids))
    decreases |commands|
  {
    if commands != [] {
      var o := Handle(a, commands[0], senders[0], ids[0]);
      EmitsCountSuccesses(o.after, commands[1..], senders[1..], ids[1..]);
    }
  }

  /** The area answers for the sender, whatever player id the command carries. */
  lemma ActsForSender(a: AreaState, command: Command, player: PlayerID, other: PlayerID, newGameID: GameID)
    requires command.SetReady? || command.CheckForWinner? || command.SetSkin? || command.RenderSprite?
    ensures Handle(a, command.(playerID := other), player, newGameID) == Handle(a, command, player, newGameID)
  {
  }

  /**
   * A successful command has its effect on the sender: JoinGame seats them,
   * LeaveGame unseats them, SetReady marks them ready, SetSkin records their
   * skin, RenderSprite their position, and CheckForWinner (reporting the
   * sender's loss) makes the opponent the winner when none was set.
   */
  lemma SenderIsActedFor(a: AreaState, command: Command, player: PlayerID, newGameID: GameID)
    requires ValidArea(a)
    requires Handle(a, command, player, newGameID).result.Success?
    ensures var after := Handle(a, command, player, newGameID).after.game.value.session;
      && (command.JoinGame? ==> player in after.players && Seated(after.state, player))
      && (command.LeaveGame? ==> player !in after.players && !Seated(after.state, player))
      && (command.SetReady? ==> player in ReadySet(after.state.ready))
      && (command.SetSkin? ==> player in after.state.skins)
      && (command.RenderSprite? ==> player in after.state.spritesData && after.state.spritesData[player] == command.positionY)
      && (command.CheckForWinner? && a.game.value.session.state.winner.None? ==>
            after.state.winner.Some? && after.state.winner.value != player)
  {
  }

  /** The game area; `_game` is `game`, `_emitAreaChanged` increments `emitCount`. */
  class SillySharkGameArea {
    var game: Option<SillySharkGame>
    var emitCount: nat

    function Footprint(): set<object>
      reads this
    {
      if game.Some? then {game.value} else {}
    }

    ghost predicate Valid()
      reads this, Footprint()
    {
      game.Some? ==> game.value.Valid()
    }

    function Abstract(): AreaState
      reads this, Footprint()
    {
      AreaState(if game.Some? then Some(Hosted(game.value.id, game.value.Snapshot())) else None, emitCount)
    }

    constructor ()
      ensures game.None? && emitCount == 0 && Valid()
    {
      game := None;
      emitCount := 0;
    }

    /** `_stateUpdated` */
    method StateUpdated()
      modifies this`emitCount
      ensures emitCount == old(emitCount) + 1
    {
      emitCount := emitCount + 1;
    }

    /** `handleCommand(command, player)`; a new game is given the id `newGameID`. */
    method HandleCommand(command: Command, player: PlayerID, newGameID: GameID)
      returns (r: Result<Response, GameError>)
      requires Valid()
      modifies this, Footprint()
      ensures Valid()
      ensures Step(r, Abstract()) == Handle(old(Abstract()), command, player, newGameID)
      ensures old(game).Some? ==> game == old(game)
      ensures old(game).None? && game.Some? ==> fresh(game.value)
    {
      if command.JoinGame? {
        var g: SillySharkGame;
        if game.None? {
          g := new SillySharkGame(newGameID);
          game := Some(g);
        } else {
          g := game.value;
        }
        var o := g.Join(player);
        if o.Fail? {
          return Failure(o.error);
        }
        StateUpdated();
        return Success(Joined(g.id));
      }
      if command.Unsupported? {
        return Failure(InvalidCommand);
      }
      if game.None? {
        return Failure(GameNotInProgress);
      }
      var g := game.value;
      if g.id != command.gameID {
        return Failure(GameIdMismatch);
      }
      var o: Outcome<GameError>;
      match command {
        case LeaveGame(_) =>
          o := g.Leave(player);
        case SetReady(_, _) =>
          o := g.SetReady(player);
        case CheckForWinner(_, _) =>
          o := g.CheckForWinner(player);
        case SetSkin(_, _, skin) =>
          o := g.SetSkin(player, skin);
        case StartGame(_) =>
          if !IsReady(g.state) {
            return Failure(BothPlayersReady);
          }
          if g.state.status == WaitingToStart {
            o := g.StartGame();
          } else {
            o := Pass;
          }
        case RenderSprite(_, _, positionY) =>
          o := g.SetPosition(player, positionY);
      }
      if o.Fail? {
        return Failure(o.error);
      }
      StateUpdated();
      return Success(Done);
    }
  }
}
