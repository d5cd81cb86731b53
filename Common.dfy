/**
 * Vocabulary shared by the Silly Shark server engine, its host and the client
 * controller: identifiers, the optional/failure wrappers that stand for
 * `undefined` and thrown errors, the game status and the error kinds.
 */
module Common {

  /** Player and game-instance ids are opaque strings (generated elsewhere). */
  type PlayerID = string
  type GameID = string

  /** `undefined` versus a present value. */
  datatype Option<+T> = None | Some(value: T)

  /** A value, or the error an operation throws. */
  datatype Result<+R, +E> = Success(value: R) | Failure(error: E)

  /** The outcome of an operation that returns nothing but may throw. */
  datatype Outcome<+E> = Pass | Fail(error: E)

  /**
   * Every status value that occurs in the system. The engine only ever
   * assigns WaitingToStart and InProgress; the client controller compares
   * against the other three.
   */
  datatype Status =
    | WaitingToStart
    | InProgress
    | SinglePlayerInProgress
    | MultiPlayerInProgress
    | Over

  /** The error messages thrown by the engine and by its host. */
  datatype GameError =
    | GameFull              // GAME_FULL_MESSAGE
    | PlayerAlreadyInGame   // PLAYER_ALREADY_IN_GAME_MESSAGE
    | PlayerNotInGame       // PLAYER_NOT_IN_GAME_MESSAGE
    | InvalidMove           // INVALID_MOVE_MESSAGE
    | GameAlreadyInProgress // GAME_ALREADY_IN_PROGRESS_MESSAGE
    | BothPlayersReady      // BOTH_PLAYERS_READY_MESSAGE
    | GameNotInProgress     // GAME_NOT_IN_PROGRESS_MESSAGE
    | GameIdMismatch        // GAME_ID_MISSMATCH_MESSAGE
    | InvalidCommand        // INVALID_COMMAND_MESSAGE

  ghost predicate NoDuplicates<T>(s: seq<T>) {
    forall i, j :: 0 <= i < j < |s| ==> s[i] != s[j]
  }

  /** The order-preserving filter `xs.filter(x => !drop.includes(x))`. */
  function FilterOut<T(==,!new)>(xs: seq<T>, drop: seq<T>): (r: seq<T>)
    ensures forall x :: x in r <==> x in xs && x !in drop
    ensures |r| <= |xs|
    ensures NoDuplicates(xs) ==> NoDuplicates(r)
    decreases |xs|
  {
    if xs == [] then []
    else if xs[0] in drop then FilterOut(xs[1..], drop)
    else
      [xs[0]] + FilterOut(xs[1..], drop)
  }

  /** Filtering distributes over concatenation: the relative order of the kept elements is preserved. */
  lemma {:induction false} FilterOutAppend<T(!new)>(xs: seq<T>, ys: seq<T>, drop: seq<T>)
    ensures FilterOut(xs + ys, drop) == FilterOut(xs, drop) + FilterOut(ys, drop)
    decreases |xs|
  {
    if xs == [] {
      assert xs + ys == ys;
    } else {
      assert (xs + ys)[1..] == xs[1..] + ys;
      FilterOutAppend(xs[1..], ys, drop);
    }
  }
}
