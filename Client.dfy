/**
 * The client-side controller of a game area: it keeps the last area model
 * received from the server, the resolved player list, the occupants and the
 * id of the game instance it takes part in, and turns each new model into a
 * short list of events. Events are returned as a sequence, in emission order.
 */
module Client {
  import opened Common
  import opened Engine
  import opened Host

  /** A resolved player, as the town's player directory returns it. */
  datatype PlayerController = PlayerController(id: PlayerID, userName: string)

  /** The game part of an area model: instance id, joined players, state record. */
  datatype GameInstance = GameInstance(id: GameID, players: seq<PlayerID>, state: GameState)

  /** The area model the server broadcasts; `game` is absent when none exists. */
  datatype AreaModel = AreaModel(id: string, game: Option<GameInstance>)

  /** The events `_updateFrom` and the occupants setter emit (`gameStart` is declared but never emitted). */
  datatype GameEvent =
    | GameUpdated
    | GameEnd
    | PlayersChange(newPlayers: seq<PlayerController>)
    | OccupantsChange(newOccupants: seq<PlayerController>)

  function Elements<T>(s: seq<T>): set<T> {
    set x | x in s
  }

  /**
   * The change test of the occupants setter and of `_updateFrom`: the lengths
   * differ or the symmetric difference of the two lists is non-empty.
   */
  predicate Differs<T(==)>(a: seq<T>, b: seq<T>) {
    |a| != |b| || Elements(a) != Elements(b)
  }

  /** Reordering a list is never reported as a change. */
  lemma PermutationDoesNotDiffer<T>(a: seq<T>, b: seq<T>)
    requires multiset(a) == multiset(b)
    ensures !Differs(a, b)
  {
    assert |a| == |multiset(a)| == |multiset(b)| == |b|;
    forall x ensures x in Elements(a) <==> x in Elements(b) {
      assert x in a <==> x in multiset(a);
      assert x in b <==> x in multiset(b);
    }
  }

  lemma {:induction false} SingleOccurrence<T>(s: seq<T>, x: T)
    requires NoDuplicates(s)
    ensures multiset(s)[x] == if x in s then 1 else 0
    decreases |s|
  {
    if s != [] {
      assert s == [s[0]] + s[1..];
      assert NoDuplicates(s[1..]) by {
        forall i, j | 0 <= i < j < |s[1..]| ensures s[1..][i] != s[1..][j] {
          assert s[1..][i] == s[i + 1] && s[1..][j] == s[j + 1];
        }
      }
      SingleOccurrence(s[1..], x);
      assert s[0] !in s[1..] by {
        forall k | 0 <= k < |s[1..]| ensures s[1..][k] != s[0] {
          assert s[1..][k] == s[k + 1];
        }
      }
      assert multiset(s) == multiset([s[0]]) + multiset(s[1..]);
    }
  }

  /**
   * For lists without repetitions (players and occupants are distinct) the
   * change test is exactly "not a permutation".
   */
  lemma DiffersIffNotPermutation<T>(a: seq<T>, b: seq<T>)
    requires NoDuplicates(a) && NoDuplicates(b)
    ensures Differs(a, b) <==> multiset(a) != multiset(b)
  {
    if !Differs(a, b) {
      forall x ensures multiset(a)[x] == multiset(b)[x] {
        SingleOccurrence(a, x);
        SingleOccurrence(b, x);
        assert (x in a) == (x in Elements(a)) && (x in b) == (x in Elements(b));
      }
      assert multiset(a) == multiset(b);
    }
    if multiset(a) == multiset(b) {
      PermutationDoesNotDiffer(a, b);
    }
  }

  function StatusOf(m: AreaModel): Option<Status> {
    if m.game.Some? then Some(m.game.value.state.status) else None
  }

  /**
   * `gameEnding`: the previous model was a running single-player game, or a
   * running multiplayer game that the new model shows as over.
   */
  predicate GameEnding(oldModel: AreaModel, newModel: AreaModel)
    // only a model that had a running game can end one
    ensures GameEnding(oldModel, newModel) ==> oldModel.game.Some?
  {
    || StatusOf(oldModel) == Some(SinglePlayerInProgress)
    || (StatusOf(oldModel) == Some(MultiPlayerInProgress) && StatusOf(newModel) == Some(Over))
  }

  /** The model a client receives for a hosted game. */
  function ModelOf(areaID: string, a: AreaState): AreaModel {
    AreaModel(areaID,
      if a.game.Some? then
        Some(GameInstance(a.game.value.id, a.game.value.session.players, a.game.value.session.state))
      else None)
  }

  /**
   * The Silly Shark engine only ever reports WaitingToStart or InProgress, so
   * successive models of a valid area never signal the end of a game.
   */
  lemma NoGameEndForSillyShark(areaID: string, before: AreaState, after: AreaState)
    requires ValidArea(before) && ValidArea(after)
    ensures !GameEnding(ModelOf(areaID, before), ModelOf(areaID, after))
  {
  }

  /**
   * The players test as written in `_updateFrom`: with no game in the new
   * model the cached length is compared with `undefined`, which never
   * compares equal, so the test is true whatever the cached list is.
   */
  predicate PlayersChangedAsWritten(cached: seq<PlayerController>, newModel: AreaModel, newPlayers: seq<PlayerController>) {
    || newModel.game.None?
    || |cached| != |newModel.game.value.players|
    || Elements(newPlayers) != Elements(cached)
  }

  /** An update without a game reports a players change although none happened. */
  lemma AsWrittenReportsEmptyPlayers(areaID: string)
    ensures PlayersChangedAsWritten([], AreaModel(areaID, None), [])
    ensures !Differs<PlayerController>([], [])
  {
  }

  /** Both tests agree whenever the new model has a game. */
  lemma AsWrittenAgreesWithGame(cached: seq<PlayerController>, newModel: AreaModel, newPlayers: seq<PlayerController>)
    requires newModel.game.Some? && |newPlayers| == |newModel.game.value.players|
    ensures PlayersChangedAsWritten(cached, newModel, newPlayers) == Differs(newPlayers, cached)
  {
  }

  /**
   * The events of one `_updateFrom`, in order: `playersChange` when the
   * players changed, always exactly one `gameUpdated`, and `gameEnd` last
   * when the game ended.
   */
  function UpdateEvents(changed: bool, newPlayers: seq<PlayerController>, ending: bool): (r: seq<GameEvent>)
    ensures multiset(r)[GameUpdated] == 1
    ensures |r| == (if changed then 1 else 0) + 1 + (if ending then 1 else 0)
    ensures PlayersChange(newPlayers) in r <==> changed
    ensures GameEnd in r <==> ending
    ensures ending ==> r[|r| - 1] == GameEnd
    ensures forall i, j :: 0 <= i < |r| && 0 <= j < |r| && r[i].PlayersChange? && r[j] == GameUpdated ==> i < j
    ensures forall i :: 0 <= i < |r| ==> r[i] in {GameUpdated, GameEnd, PlayersChange(newPlayers)}
  {
    (if changed then [PlayersChange(newPlayers)] else []) + [GameUpdated] + (if ending then [GameEnd] else [])
  }

  class GameAreaController {
    const id: string
    /** The town's player directory (`getPlayer`). */
    const getPlayer: PlayerID -> PlayerController
    var instanceID: Option<GameID>
    var model: AreaModel
    var players: seq<PlayerController>
    var occupants: seq<PlayerController>

    /** The players of the model's game resolved through the directory; `[]` without a game. */
    function Resolve(m: AreaModel): (r: seq<PlayerController>)
      ensures m.game.None? ==> r == []
      ensures m.game.Some? ==> |r| == |m.game.value.players|
      ensures m.game.Some? ==> forall i :: 0 <= i < |r| ==> r[i] == getPlayer(m.game.value.players[i])
    {
      if m.game.None? then []
      else seq(|m.game.value.players|, i requires 0 <= i < |m.game.value.players| => getPlayer(m.game.value.players[i]))
    }

    constructor (id: string, gameArea: AreaModel, getPlayer: PlayerID -> PlayerController)
      ensures this.id == id && this.getPlayer == getPlayer
      ensures model == gameArea && instanceID == None && occupants == []
      ensures players == Resolve(gameArea)
    {
      this.id := id;
      this.getPlayer := getPlayer;
      model := gameArea;
      instanceID := None;
      occupants := [];
      players := if gameArea.game.Some? then
        seq(|gameArea.game.value.players|,
            i requires 0 <= i < |gameArea.game.value.players| => getPlayer(gameArea.game.value.players[i]))
      else [];
    }

    /** The `occupants` setter: a list with the same members is ignored. */
    method SetOccupants(newOccupants: seq<PlayerController>) returns (events: seq<GameEvent>)
      modifies this`occupants
      ensures Differs(newOccupants, old(occupants)) ==>
        occupants == newOccupants && events == [OccupantsChange(newOccupants)]
      ensures !Differs(newOccupants, old(occupants)) ==>
        occupants == old(occupants) && events == []
      ensures multiset(newOccupants) == multiset(old(occupants)) ==> occupants == old(occupants) && events == []
    {
      if |newOccupants| != |occupants| || Elements(newOccupants) != Elements(occupants) {
        events := [OccupantsChange(newOccupants)];
        occupants := newOccupants;
      } else {
        events := [];
      }
      if multiset(newOccupants) == multiset(old(occupants)) {
        PermutationDoesNotDiffer(newOccupants, old(occupants));
      }
    }

    /** `observers`: the occupants that are not players, in occupant order. */
    function Observers(): (r: seq<PlayerController>)
      reads this
      ensures forall o :: o in r <==> o in occupants && o !in players
      ensures |r| <= |occupants|
      ensures NoDuplicates(occupants) ==> NoDuplicates(r)
    {
      FilterOut(occupants, players)
    }

    /** `isEmpty`: nobody occupies the area (and so nobody observes it). */
    function IsEmpty(): (r: bool)
      reads this
      ensures r <==> occupants == []
      ensures r ==> Observers() == []
    {
      |occupants| == 0
    }

    /** The tail of `joinGame` once the server answered `{ gameID }`. */
    method JoinGame(gameID: GameID)
      modifies this`instanceID
      ensures instanceID == Some(gameID)
    {
      instanceID := Some(gameID);
    }

    /** `leaveGame`: the command sent, if any; nothing is sent without an instance id. */
    method LeaveGame() returns (sent: Option<Command>)
      ensures instanceID.None? <==> sent.None?
      ensures sent.Some? ==> sent.value == Command.LeaveGame(instanceID.value)
    {
      if instanceID.Some? {
        sent := Some(Command.LeaveGame(instanceID.value));
      } else {
        sent := None;
      }
    }

    /**
     * `_updateFrom`: an optional players change, then exactly one
     * `gameUpdated`, then `gameEnd` if the game ended.
     */
    method UpdateFrom(newModel: AreaModel) returns (events: seq<GameEvent>)
      modifies this`players, this`model, this`instanceID
      ensures var newPlayers := Resolve(newModel);
        var changed := Differs(newPlayers, old(players));
        && players == (if changed then newPlayers else old(players))
        && events == UpdateEvents(changed, newPlayers, GameEnding(old(model), newModel))
      ensures model == newModel
      ensures instanceID == if newModel.game.Some? then Some(newModel.game.value.id) else old(instanceID)
      ensures multiset(Resolve(newModel)) == multiset(old(players)) ==> players == old(players)
    {
      var gameEnding := GameEnding(model, newModel);
      var newPlayers := Resolve(newModel);
      var changed := |players| != |newPlayers| || Elements(newPlayers) != Elements(players);
      events := [];
      if changed {
        players := newPlayers;
        events := [PlayersChange(newPlayers)];
      }
      model := newModel;
      events := events + [GameUpdated];
      if newModel.game.Some? {
        instanceID := Some(newModel.game.value.id);
      }
      if gameEnding {
        events := events + [GameEnd];
      }
      assert events == UpdateEvents(changed, newPlayers, gameEnding);
      if multiset(newPlayers) == multiset(old(players)) {
        PermutationDoesNotDiffer(newPlayers, old(players));
      }
    }
  }
}
