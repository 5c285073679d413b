/**
 * The game's configuration object `BASE_GAME_CONFIG`. Its module is not
 * part of this model, so every constant is a parameter that is only known
 * to be positive; the values the rest of the repository implies are named
 * by `MatchesServer` and assumed only where a lemma says so.
 */
module Config {

  type PosInt = n: int | n > 0 witness 1
  type PosReal = r: real | r > 0.0 witness 1.0

  datatype GameConfig = GameConfig(
    maxScorePerCategory: PosInt,  // MAX_SCORE_PER_CATEGORY
    targetSize: PosReal,          // TARGET_SIZE, the target's radius in pixels
    centerTolerance: PosReal,     // CENTER_TOLERANCE, the centre zone's radius in pixels
    roundsCount: PosInt,          // ROUNDS_COUNT
    preparationTime: PosReal,     // PREPARATION_TIME in milliseconds
    isResultOutOfShown: bool      // IS_RESULT_OUT_OF_SHOWN
  )

  /**
   * The values the server's validator and the results view hard-code:
   * scores out of 100 and exactly three rounds.
   */
  predicate MatchesServer(cfg: GameConfig)
  {
    cfg.maxScorePerCategory == 100 && cfg.roundsCount == 3
  }
}
