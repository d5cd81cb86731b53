/**
 * The Silly Shark player: a town player that remembers its best score and
 * carries a sprite size that stays at zero.
 */
module Scores {

  function Max(a: int, b: int): int {
    if a < b then b else a
  }

  /** The high score after `updateHighScore` is called with each score in turn. */
  function HighScoreAfter(start: int, scores: seq<int>): (r: int)
    ensures r >= start
    ensures forall i :: 0 <= i < |scores| ==> r >= scores[i]
    ensures r == start || r in scores
    decreases |scores|
  {
    if scores == [] then start
    else HighScoreAfter(Max(start, scores[0]), scores[1..])
  }

  /** Appending more updates never lowers the high score. */
  lemma {:induction false} HighScoreMonotone(start: int, earlier: seq<int>, later: seq<int>)
    ensures HighScoreAfter(start, earlier + later) == HighScoreAfter(HighScoreAfter(start, earlier), later)
    ensures HighScoreAfter(start, earlier + later) >= HighScoreAfter(start, earlier)
    decreases |earlier|
  {
    if earlier == [] {
      assert earlier + later == later;
    } else {
      assert (earlier + later)[1..] == earlier[1..] + later;
      HighScoreMonotone(Max(start, earlier[0]), earlier[1..], later);
    }
  }

  /** Scores that do not beat the current high score leave it alone. */
  lemma {:induction false} LowScoresAreNoOps(start: int, scores: seq<int>)
    requires forall i :: 0 <= i < |scores| ==> scores[i] <= start
    ensures HighScoreAfter(start, scores) == start
    decreases |scores|
  {
    if scores != [] {
      LowScoresAreNoOps(start, scores[1..]);
    }
  }

  class SillySharkPlayer {
    var highScore: int
    /** The sprite size is fixed at zero; nothing ever assigns it. */
    const playerHeight: int := 0
    const playerWidth: int := 0

    constructor ()
      ensures highScore == 0 && playerHeight == 0 && playerWidth == 0
    {
      highScore := 0;
    }

    /** `updateHighScore`: keep the larger of the old high score and `newScore`. */
    method UpdateHighScore(newScore: int)
      modifies this`highScore
      ensures highScore == Max(old(highScore), newScore)
      ensures highScore == HighScoreAfter(old(highScore), [newScore])
    {
      if newScore > highScore {
        highScore := newScore;
      }
    }
  }
}
