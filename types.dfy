/** The client's record types: game states, round results and the mouse path. */
module GameTypes {
  import opened Geometry

  /** The four phases of a game. */
  datatype GameState = Waiting | Preparing | Playing | Finished

  /** The time part of a round result: the measured duration and its score. */
  datatype TimeResult = TimeResult(valueMs: int, score: int)

  /** One round's three scores, each already rounded to an integer. */
  datatype RoundResult = RoundResult(accuracyScore: int, distanceFromCenter: int, time: TimeResult)

  /** The pointer positions sampled during a round and the round's start time (ms). */
  datatype MousePath = MousePath(points: seq<Point>, startTime: real)

  /** Every score of `r` lies in `[0, maxScore]`. */
  predicate ScoresInRange(r: RoundResult, maxScore: int)
  {
    && 0 <= r.accuracyScore <= maxScore
    && 0 <= r.distanceFromCenter <= maxScore
    && 0 <= r.time.score <= maxScore
  }
}
