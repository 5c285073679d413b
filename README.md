# Aim trainer — a Dafny model of the game core

The aim trainer is a browser game. The player holds the pointer in a small
zone at the centre of a square canvas, a target appears on a circle around
it, and the player moves to the target and clicks. Each of three rounds is
scored 0 to 100 in three categories:

- **accuracy**: how closely the pointer path follows the straight line from the centre to the target;
- **hit**: how close the click is to the target;
- **time**: how close the round's duration is to 100 ms.

When the game ends the client posts the results to a server. The server's
validation middleware checks the request before storing it. A results panel
shows every score with the Russian word for "points" in the right plural
form.

This project models four parts of the game:

- the scoring utilities (`client/src/utils/index.ts`);
- the game engine hook, with its handlers and React effects (`client/src/utils/useGameEngine.ts`);
- the results panel's formatting (`client/src/components/GameResults.tsx`);
- the server's `validateGameResult` middleware (`server/src/middleware/validation.ts`).

It also proves properties of each part, and of how they fit together.

Modules, in dependency order:

- `Text` (text.dfy) models JavaScript's string behaviour:
  - decimal rendering of integers, with a round-trip proof;
  - `String.prototype.trim` and blankness;
  - the UTF-16 `length` that the nickname check measures.
- `Config` (config.dfy) holds `BASE_GAME_CONFIG` as a parameter with positive fields. `MatchesServer` is the assumption "100 points per category, 3 rounds", which only the lemmas that name it rely on.
- `JsMath` (jsmath.dfy) has `Math.min`, `Math.max`, `Math.abs`, `Math.round` (round half up) and `Number.isInteger`.
- `Wrappers` (wrappers.dfy) is an `Option` type, used for `outOf ?? 100` and the pending timeout.
- `Geometry` (geometry.dfy) has `getDistance` and `checkInCenter`:
  - `Math.sqrt` is a parameter obeying the law of the exact square root;
  - distance comparisons are reduced to squared distances.
- `GameTypes` (types.dfy) holds the client's `GameState`, `RoundResult` and `MousePath`.
- `Scoring` (scoring.dfy) has the three score functions and `getTotalScore`:
  - `calculateAccuracyScore` is also an imperative method with the source's loop, proved equal to the functional definition;
  - each score gets its range, its perfect case, its zero case and its monotonicity.
- `Wire` (wire.dfy) covers the posted `GameResultRequest`:
  - the mapping from round results to it, and back;
  - its JSON form.
- `JsValues` (jsvalues.dfy) models parsed JSON values, with `typeof`, truthiness and property access.
- `Validation` (validation.dfy) models the middleware:
  - the exact cascade of checks as a function;
  - the same as an imperative method with early returns and the loop over `rounds`;
  - a description of the accepted bodies without the cascade, proved equivalent.
- `Submission` (submission.dfy) states what the server makes of the request the client builds.
- `GameResults` (game_results.dfy) has `getPointsWord`, `formatResults`, the final score fold and the condition for showing the final line.
- `Session` (session.dfy) is the hook as a state machine:
  - one state holds every `useState` value, the hold-to-start animation loop, the pending preparation timeout, and the payloads posted so far;
  - each browser event maps a state to the next;
  - the effects React re-runs are part of the step when one of their dependencies changed;
  - an invariant is proved preserved by every event, along with the game's behaviour.
- `Engine` (engine.dfy) is the hook as a class with one field per state variable. Each handler, timer callback and animation frame is a method that updates the fields in place. Each method's new fields are proved equal to the matching `Session` function of the old ones. Each event method (nickname edit, move, click, timeout, animation frame) also requires and keeps the invariant.

Behaviour the model makes explicit:

- After a game ends, every nickname edit re-runs the submit effect, so the same results are posted again under the new name (`Session.NicknameEditAfterGameResubmits`).
- Holding the centre after a game with a blank nickname still clears the results. The game stays finished, and the submit effect then posts a payload with no rounds (`Session.HoldWithBlankNicknameAfterGame`).
- The server rejects an empty nickname as a missing field, never as too short (`Validation.EmptyNicknameIsMissing`). The length message therefore only ever reports names longer than 50 UTF-16 units.
- The server requires integral scores but accepts a fractional duration.
- The time score at 0 ms is 0.9·MAX, which is 90 points with MAX = 100 (`Scoring.TimeScoreAtZero`).

## Model

Rows marked "no contract of its own" are definitions; the lemmas they name state what they mean. General facts about real arithmetic (products, quotients, order under scaling) are proof steps and have no row.

| member | source | states |
|---|---|---|
| Text.NatToString | client/src/components/GameResults.tsx:19-20 | `${n}` of a non-negative integer is a non-empty digit string without a leading zero |
| Text.NatToStringRoundTrip | client/src/components/GameResults.tsx:19-20 | reading the rendered digits back gives the number |
| Text.IntToString | client/src/components/GameResults.tsx:19-20 | `${i}` starts with '-' exactly for negative integers, and is otherwise digits |
| Text.NatToStringInjective | client/src/components/GameResults.tsx:19-20 | distinct natural numbers render as distinct numerals |
| Text.IntToStringInjective | client/src/components/GameResults.tsx:19-20 | distinct integers render as distinct strings |
| Text.TrimStart | client/src/utils/useGameEngine.ts:158 | the result is a suffix; only whitespace was removed; it does not start with whitespace |
| Text.TrimEnd | client/src/utils/useGameEngine.ts:158 | the result is a prefix; only whitespace was removed; it does not end in whitespace |
| Text.Trim | client/src/utils/useGameEngine.ts:158 | `trim()` as trimming both ends; characterised by `Text.TrimEmptyIffBlank` (no contract of its own) |
| Text.IsBlank | client/src/utils/useGameEngine.ts:158 | a name made only of JavaScript whitespace; `Text.TrimEmptyIffBlank` proves it is exactly the names `trim()` empties (no contract of its own) |
| Text.TrimEmptyIffBlank | client/src/utils/useGameEngine.ts:158-160 | `!nickNameValue.trim()` holds exactly for names made only of whitespace |
| Text.Utf16Length | server/src/middleware/validation.ts:29 | the UTF-16 length lies between the code-point count and twice it |
| JsMath.Min | client/src/utils/index.ts:55 | `Math.min` is a lower bound equal to one argument |
| JsMath.Max | client/src/utils/index.ts:59 | `Math.max` is an upper bound equal to one argument |
| JsMath.Abs | client/src/utils/index.ts:81 | `Math.abs` is non-negative and equals the argument or its negation |
| JsMath.AbsInt | client/src/components/GameResults.tsx:6 | the integer `Math.abs` is a natural number equal to n or -n |
| JsMath.Round | client/src/utils/useGameEngine.ts:90-102 | `Math.round(x)` is the integer in (x - 1/2, x + 1/2] |
| JsMath.RoundOfInteger | client/src/utils/useGameEngine.ts:101 | rounding an integral duration leaves it unchanged |
| JsMath.RoundMonotone | client/src/utils/useGameEngine.ts:90-102 | rounding preserves order |
| JsMath.RoundInRange | client/src/utils/useGameEngine.ts:90-102 | a score in [0, max] rounds to an integer in [0, max] |
| Wrappers.Option.GetOr | client/src/components/GameResults.tsx:19 | `outOf ?? 100` is the given value when present and the default otherwise |
| Geometry.SquaredDistance | client/src/utils/index.ts:4-6 | the sum of squared coordinate differences is non-negative |
| Geometry.Distance | client/src/utils/index.ts:4-6 | `getDistance` is non-negative, and its square is the squared distance |
| Geometry.SquaredDistanceZeroIff | client/src/utils/index.ts:4-6 | the squared distance is zero exactly for identical points |
| Geometry.SqrtZeroIff | client/src/utils/index.ts:5 | the root of a non-negative number is zero exactly at zero |
| Geometry.DistanceSymmetric | client/src/utils/index.ts:4-6 | the distance does not depend on argument order |
| Geometry.DistanceZeroIff | client/src/utils/index.ts:4-6 | the distance is zero exactly for identical points |
| Geometry.DistanceAtMostIff | client/src/utils/index.ts:4-6 | distance <= bound exactly when squared distance <= bound² |
| Geometry.CheckInCenter | client/src/utils/index.ts:8-15 | `getDistance(point, centre) <= CENTER_TOLERANCE`; characterised without a root by `Geometry.CheckInCenterIff` (no contract of its own) |
| Geometry.CheckInCenterIff | client/src/utils/index.ts:8-15 | the centre zone is the closed disc of radius CENTER_TOLERANCE around the centre |
| Scoring.ClampedScore | client/src/utils/index.ts:53-59 | the normalised score lies in [0, MAX], is MAX exactly for zero deviation and 0 exactly from the maximum deviation on |
| Scoring.ClampedScoreMonotone | client/src/utils/index.ts:53-59 | a larger deviation never scores more |
| Scoring.IdealPoint | client/src/utils/index.ts:44-47 | the ideal point of the first sample is the centre, and of the last sample the target |
| Scoring.Deviation | client/src/utils/index.ts:49 | a sample's deviation from its ideal point is non-negative |
| Scoring.TotalDeviation | client/src/utils/index.ts:39-51 | the accumulated deviation is non-negative |
| Scoring.MeanDeviation | client/src/utils/index.ts:53 | the average deviation is non-negative |
| Scoring.AccuracyScore | client/src/utils/index.ts:28-60 | the accuracy score lies in [0, MAX], is 0 for paths of fewer than two points, and is 0 exactly when the mean deviation reaches 50 px |
| Scoring.TotalDeviationZeroIff | client/src/utils/index.ts:39-51 | the accumulated deviation is zero exactly when every sample so far lies on its ideal point |
| Scoring.AccuracyScorePerfectIff | client/src/utils/index.ts:28-60 | a path of two or more points scores MAX exactly when every sample lies on the ideal line |
| Scoring.TotalDeviationAtMost | client/src/utils/index.ts:39-51 | if every deviation is at most b, the total over k samples is at most k·b |
| Scoring.MeanDeviationAtMost | client/src/utils/index.ts:39-53 | if every deviation is at most b, so is the average deviation |
| Scoring.AccuracyScoreLowerBound | client/src/utils/index.ts:28-60 | if every deviation is at most b, the score is at least MAX·(1 - b/50) |
| Scoring.CalculateAccuracyScore | client/src/utils/index.ts:28-60 | the loop computes exactly the accuracy score |
| Scoring.DistanceScore | client/src/utils/index.ts:62-76 | the hit score lies in [0, MAX], is MAX exactly for a click on the target, and is 0 exactly from TARGET_SIZE away on |
| Scoring.DistanceScoreMonotone | client/src/utils/index.ts:62-76 | a click closer to the target never scores less |
| Scoring.TimeScore | client/src/utils/index.ts:78-87 | the time score lies in [0, MAX], is MAX exactly at 100 ms, and is 0 exactly at least 1000 ms away from it |
| Scoring.TimeScoreMonotone | client/src/utils/index.ts:78-87 | a duration closer to 100 ms never scores less; durations equally far score equally |
| Scoring.TimeScoreAtZero | client/src/utils/index.ts:78-87 | a duration of 0 ms scores 0.9·MAX |
| Scoring.TotalScore | client/src/utils/index.ts:89-90 | the sum of the round's three scores; bounded by `Scoring.TotalScoreInRange` (no contract of its own) |
| Scoring.TotalScoreInRange | client/src/utils/index.ts:89-90 | a round with in-range scores totals between 0 and 3·MAX |
| JsValues.TypeOf | server/src/middleware/validation.ts:49-67 | `typeof` is "object" exactly for null, arrays and objects, "number" exactly for numbers and "string" exactly for strings |
| JsValues.Truthy | server/src/middleware/validation.ts:12 | `!!v`: false exactly for undefined, null, false, 0 and the empty string; used by `Validation.EmptyNicknameIsMissing` (no contract of its own) |
| JsValues.Field | server/src/middleware/validation.ts:46-53 | a missing property reads as undefined |
| Wire.WireRoundTrip | client/src/utils/useGameEngine.ts:223-230 | mapping a result to its posted form and back loses nothing, in both directions |
| Wire.MapToWire | client/src/utils/useGameEngine.ts:223-230 | the mapping preserves the length, and each posted round reads back as its result |
| Wire.SubmitPayload | client/src/utils/useGameEngine.ts:221-231 | the posted nickname is never empty, is the typed one when there is one and 'No nickname' for an empty one, and the rounds are the results in order |
| Wire.RoundsToJson | client/src/utils/useGameEngine.ts:223-230 | the JSON array has one object per posted round, in order |
| Validation.CheckRound | server/src/middleware/validation.ts:46-115 | checking a round throws exactly when it is null or undefined, and every 400 names that round's index; each error kind is characterised by `Validation.CheckRoundErrorIff` |
| Validation.CheckRoundNextIff | server/src/middleware/validation.ts:46-115 | a round passes every check exactly when it is an object with three integral scores in [0, 100] and a positive duration |
| Validation.CheckRoundsNextIff | server/src/middleware/validation.ts:45-116 | the loop runs to the end exactly when every remaining round is good |
| Validation.ValidateNextIff | server/src/middleware/validation.ts:4-119 | `next()` is called exactly for an object body with a 1 to 50 unit string nickname and exactly three good rounds |
| Validation.CheckRoundsFirstFailure | server/src/middleware/validation.ts:45-116 | the answer is that of the first bad round |
| Validation.CheckRoundsError | server/src/middleware/validation.ts:45-116 | every 400 from the loop is a per-round error |
| Validation.EmptyNicknameIsMissing | server/src/middleware/validation.ts:12-34 | an empty nickname is reported as missing |
| Validation.NicknameLengthMeansTooLong | server/src/middleware/validation.ts:29-34 | the length error is only ever given for a string longer than 50 UTF-16 units |
| Validation.DurationNeedNotBeInteger | server/src/middleware/validation.ts:89-115 | a duration of 0.5 ms passes, and one of 0 ms fails with the round-1 duration error |
| Validation.ValidateGameResult | server/src/middleware/validation.ts:4-119 | the middleware with its early returns and loop ends exactly as the cascade does |
| Validation.Message | server/src/middleware/validation.ts:12-116 | the text of each 400; a per-round message starts with `Round ${i + 1}: ` |
| Validation.MessageNamesRound | server/src/middleware/validation.ts:55-116 | two per-round messages that are equal name the same round |
| Validation.CheckRounds | server/src/middleware/validation.ts:45-116 | the loop over the rounds from index i; characterised by `Validation.CheckRoundsNextIff`, `Validation.CheckRoundsFirstFailure` and `Validation.CheckRoundsErrorAt` (no contract of its own) |
| Validation.Validate | server/src/middleware/validation.ts:4-119 | the whole cascade; characterised by `Validation.ValidateNextIff`, `Validation.ValidateErrorIff` and `Validation.ValidateRoundErrorIff` (no contract of its own) |
| Validation.CheckRoundCascade | server/src/middleware/validation.ts:46-115 | on an object round, the check is the first failing test in source order, each test stated on its own by `Validation.CheckFails` |
| Validation.CheckRoundErrorIff | server/src/middleware/validation.ts:46-115 | a round gets a given 400 exactly when it is an object, that test fails, and every test before it passes |
| Validation.CheckRoundsErrorAt | server/src/middleware/validation.ts:45-116 | the loop answers with the 400 of round j exactly when j is in range, every earlier round is good, and round j gets that 400 |
| Validation.ValidateErrorIff | server/src/middleware/validation.ts:11-42 | each header error happens exactly when its test is the first to fail: missing fields, wrong types, nickname length, round count |
| Validation.ValidateRoundErrorIff | server/src/middleware/validation.ts:4-116 | the middleware answers with the 400 of round j exactly when the header passes, there are three rounds, every earlier round is good and round j gets that 400 |
| Submission.PostedRoundOkIff | server/src/middleware/validation.ts:46-115 | a round the client posts passes exactly when its three scores lie in [0, 100] and its duration is positive |
| Submission.IntegerIsInteger | server/src/middleware/validation.ts:104-108 | an integer the client posts satisfies `Number.isInteger` |
| Submission.RequestAcceptedIff | server/src/middleware/validation.ts:4-119 | the server takes a posted request exactly when the nickname has 1 to 50 units, there are three rounds, and each is in range |
| Submission.PayloadRoundsInRange | client/src/utils/useGameEngine.ts:223-230 | every posted round lies in the server's ranges exactly when every result has in-range scores and a positive duration |
| Submission.SubmitAcceptedIff | client/src/utils/useGameEngine.ts:219-233 | the server takes what the submit effect posts exactly when the nickname fits, there are three results, and each has in-range scores and a positive duration |
| Submission.DefaultNicknameFits | client/src/utils/useGameEngine.ts:222 | 'No nickname' passes the server's length check |
| Submission.EmptyRequestRejected | server/src/middleware/validation.ts:37-42 | a request with a fitting nickname and no rounds is turned away for its round count |
| GameResults.PointsWord | client/src/components/GameResults.tsx:5-13 | the result is one of 'очко', 'очка', 'очков' |
| GameResults.PointsWordMatchesRule | client/src/components/GameResults.tsx:5-13 | the word agrees with the rule on the last two decimal digits of abs(n) |
| GameResults.LastTwoDigits | client/src/components/GameResults.tsx:8-9 | n mod 100 is made of its tens and units digits |
| GameResults.PointsWordCases | client/src/components/GameResults.tsx:5-13 | 'очко' exactly for units digit 1 except 11; 'очка' exactly for units digit 2 to 4 except 12 to 14; 'очков' in all other cases |
| GameResults.PointsWordSymmetric | client/src/components/GameResults.tsx:6 | n and -n take the same word |
| GameResults.FormatResults | client/src/components/GameResults.tsx:15-21 | with IS_RESULT_OUT_OF_SHOWN the text is `${results}/${outOf ?? 100} ${word}`, without it `${results} ${word}`; it contains '/' exactly when the total is shown |
| GameResults.FormatResultsInjective | client/src/components/GameResults.tsx:15-21 | different scores are formatted differently |
| GameResults.FoldTotals | client/src/components/GameResults.tsx:29-32 | the `reduce` over the round totals from an accumulator; `GameResults.FoldTotalsIsSum` proves it adds their sum (no contract of its own) |
| GameResults.FinalScore | client/src/components/GameResults.tsx:29-32 | the reduce from 0; `GameResults.FinalScoreAppend` and `GameResults.FinalScoreBounds` state what it is (no contract of its own) |
| GameResults.SumOfTotalsCons | client/src/components/GameResults.tsx:29-32 | the sum of the round totals splits at its first round |
| GameResults.FoldTotalsIsSum | client/src/components/GameResults.tsx:29-32 | the `reduce` from an accumulator adds the sum of the round totals |
| GameResults.FinalScoreAppend | client/src/components/GameResults.tsx:29-32 | the final score starts at 0 and a new round adds its total |
| GameResults.SumOfTotalsBounds | client/src/components/GameResults.tsx:29-32 | with in-range rounds, the sum lies in [0, 3·MAX·rounds] |
| GameResults.FinalScoreBounds | client/src/components/GameResults.tsx:29-66 | the final score lies in [0, 3·MAX·rounds], and under the server configuration never exceeds the ROUNDS_COUNT·300 it is shown out of |
| GameResults.FinalResultLine | client/src/components/GameResults.tsx:36-68 | the final result line is shown exactly when there are results and the game is finished |
| Session.RoundResultOf | client/src/utils/useGameEngine.ts:86-108 | a finished round records the rounded accuracy of the path, the rounded hit score of the click and the rounded duration with the rounded time score of that integer; the scores are integers in [0, MAX], and the duration is non-negative when the click does not precede the round's start |
| Session.RecordedDistanceMonotone | client/src/utils/useGameEngine.ts:98-100 | of two clicks on one target, the closer one never records a lower hit score |
| Session.RecordedWholeDuration | client/src/utils/useGameEngine.ts:87-102 | a round lasting a whole number of milliseconds records that number as it is |
| Session.Init | client/src/utils/useGameEngine.ts:52-65 | the state of the first render; `Session.InitInv` proves it satisfies the invariant (no contract of its own) |
| Session.SetNickname | client/src/utils/useGameEngine.ts:52 | `setNickNameValue` followed by the effects that depend on the nickname; see `Session.NicknameEditAfterGameResubmits` (no contract of its own) |
| Session.HandleMouseMove | client/src/utils/useGameEngine.ts:121-139 | the move handler and its effects; see `Session.MouseMoveFacts` (no contract of its own) |
| Session.FinishRound | client/src/utils/useGameEngine.ts:86-118 | `finishRound` and its effects; see `Session.ClickFinishesRound` and `Session.ClickInv` (no contract of its own) |
| Session.HandleMouseClick | client/src/utils/useGameEngine.ts:142-146 | the click handler; see `Session.ClickIgnoredUnlessPlaying` and `Session.ClickFinishesRound` (no contract of its own) |
| Session.StartNewRound | client/src/utils/useGameEngine.ts:149-154 | `startNewRound` and its effects; see `Session.PlayingOnlyViaTimer` and `Session.TimerFiresOnce` (no contract of its own) |
| Session.PreparationTimerFired | client/src/utils/useGameEngine.ts:208-216 | the preparation timeout, which starts the round once its deadline passed; see `Session.PlayingOnlyViaTimer` (no contract of its own) |
| Session.StartGame | client/src/utils/useGameEngine.ts:157-164 | `startGame`; see `Session.HoldStartsGame` and `Session.HoldWithBlankNicknameWaits` (no contract of its own) |
| Session.HoldTick | client/src/utils/useGameEngine.ts:171-194 | one animation frame of the hold loop; see `Session.HoldTickInProgress`, `Session.HoldTickCompletes` and `Session.HoldTickInv` (no contract of its own) |
| Session.CompleteHold | client/src/utils/useGameEngine.ts:182-193 | the completed hold; see `Session.HoldStartsGame`, `Session.HoldRestartsGame` and `Session.CompleteHoldInv` (no contract of its own) |
| Session.HoldEffect | client/src/utils/useGameEngine.ts:196-204 | the hold effect: a fresh loop in the centre of an idle game, otherwise no loop and zero progress; see `Session.RerunInv` (no contract of its own) |
| Session.TimerEffect | client/src/utils/useGameEngine.ts:208-216 | the preparation effect: a deadline exactly while preparing; see `Session.RerunEntersPreparing` (no contract of its own) |
| Session.SubmitEffect | client/src/utils/useGameEngine.ts:219-233 | the submit effect: one more payload exactly when finished; see `Session.SubmitEffectInv` (no contract of its own) |
| Session.Rerun | client/src/utils/useGameEngine.ts:167-233 | the effects whose dependencies changed, in source order; see `Session.RerunFields` and `Session.RerunInv` (no contract of its own) |
| Session.Step | client/src/utils/useGameEngine.ts:86-233 | the state after one browser event; see `Session.StepInv` and `Session.StepSends` (no contract of its own) |
| Session.InitInv | client/src/utils/useGameEngine.ts:52-65 | the first render satisfies the invariant |
| Session.SubmitEffectInv | client/src/utils/useGameEngine.ts:219-233 | posting from a well-formed state posts all the rounds or none, each in range |
| Session.RerunInv | client/src/utils/useGameEngine.ts:167-233 | the effects restore the hold and timer invariants whenever their dependencies changed |
| Session.StepInv | client/src/utils/useGameEngine.ts:86-233 | every event keeps the invariant: round count by phase, in-range results, progress in [0, 1), a loop only in the centre of an idle game, a timeout exactly while preparing, and well-formed payloads |
| Session.ClickInv | client/src/utils/useGameEngine.ts:86-118 | finishing a round keeps the invariant |
| Session.HoldTickInv | client/src/utils/useGameEngine.ts:171-194 | a frame of the hold loop keeps the invariant |
| Session.CompleteHoldInv | client/src/utils/useGameEngine.ts:182-193 | a completed hold keeps the invariant |
| Session.ClickIgnoredUnlessPlaying | client/src/utils/useGameEngine.ts:142-146 | a click outside play changes nothing |
| Session.ClickFinishesRound | client/src/utils/useGameEngine.ts:86-118 | a click in play appends the result; after the last round the game is finished and posted once, otherwise the next round is prepared with its timeout armed |
| Session.MouseMoveFacts | client/src/utils/useGameEngine.ts:121-139 | a move records the position and the centre-disc test, extends the path only in play, and never posts |
| Session.PlayingOnlyViaTimer | client/src/utils/useGameEngine.ts:208-216 | play starts only from the preparation timeout, with a fresh path and the new target |
| Session.TimerFiresOnce | client/src/utils/useGameEngine.ts:149-154 | starting play disarms the timeout and keeps the results |
| Session.HoldFractionFacts | client/src/utils/useGameEngine.ts:173-177 | the hold progress lies in [0, 1] and reaches 1 exactly after PREPARATION_TIME / 2 |
| Session.HoldTickInProgress | client/src/utils/useGameEngine.ts:171-181 | before completion a frame records the progress and keeps the loop going, changing nothing else |
| Session.HoldTickCompletes | client/src/utils/useGameEngine.ts:182-193 | a frame after the hold time completes the hold |
| Session.HoldStartsGame | client/src/utils/useGameEngine.ts:182-185 | a completed hold before the first game, with a nickname, prepares round 0 and arms its timeout |
| Session.HoldRestartsGame | client/src/utils/useGameEngine.ts:186-191 | a completed hold after a game, with a nickname, clears the results and path and prepares a new game |
| Session.HoldWithBlankNicknameWaits | client/src/utils/useGameEngine.ts:182-192 | with a blank nickname a completed hold before the first game only stops the loop |
| Session.HoldWithBlankNicknameAfterGame | client/src/utils/useGameEngine.ts:186-191 | with a blank nickname a completed hold after a game clears the results, stays finished and posts an empty payload |
| Session.RerunEntersPreparing | client/src/utils/useGameEngine.ts:196-216 | entering preparation stops the hold loop, arms the timeout and posts nothing |
| Session.CompleteHoldIgnoresLoop | client/src/utils/useGameEngine.ts:178-192 | the completed hold overwrites the progress written before it |
| Session.NicknameEditAfterGameResubmits | client/src/utils/useGameEngine.ts:219-233 | editing the nickname after a game posts the results again under the new name |
| Session.StepSends | client/src/utils/useGameEngine.ts:219-233 | posting only appends, at most once per event, and only with the nickname and results of a finished state |
| Session.RerunFields | client/src/utils/useGameEngine.ts:167-233 | the effects change only the loop, the progress, the timeout and the posted payloads |
| Session.HoldTickFields | client/src/utils/useGameEngine.ts:171-194 | a frame never starts play nor moves the target |
| Session.SentPayloadVerdict | client/src/utils/useGameEngine.ts:219-233 | under the server configuration a posted payload is accepted exactly when its nickname fits, it has three rounds and every duration is positive |
| Engine.GameEngine.constructor | client/src/utils/useGameEngine.ts:52-65 | the initial state, with no loop, no timeout and nothing posted |
| Engine.GameEngine.RunEffects | client/src/utils/useGameEngine.ts:167-233 | the fields become the state after the effects |
| Engine.GameEngine.RunHoldEffect | client/src/utils/useGameEngine.ts:196-204 | the fields become the state after the hold effect: a loop from the centre of an idle game, otherwise no loop and zero progress |
| Engine.GameEngine.RunTimerEffect | client/src/utils/useGameEngine.ts:208-216 | the fields become the state after the preparation effect: a timeout exactly while preparing |
| Engine.GameEngine.RunSubmitEffect | client/src/utils/useGameEngine.ts:219-233 | the fields become the state after the submit effect: one more payload exactly when finished |
| Engine.GameEngine.SetNickNameValue | client/src/utils/useGameEngine.ts:219-233 | the fields follow the state machine's nickname edit and keep the invariant |
| Engine.GameEngine.HandleMouseMove | client/src/utils/useGameEngine.ts:121-139 | the fields follow the state machine's move and keep the invariant |
| Engine.GameEngine.FinishRound | client/src/utils/useGameEngine.ts:86-118 | the fields follow the state machine's round end and keep the invariant |
| Engine.GameEngine.HandleMouseClick | client/src/utils/useGameEngine.ts:142-146 | the fields follow the state machine's click and keep the invariant |
| Engine.GameEngine.StartNewRound | client/src/utils/useGameEngine.ts:149-154 | the fields follow the state machine's round start |
| Engine.GameEngine.PreparationTimerFired | client/src/utils/useGameEngine.ts:208-216 | the fields follow the state machine's timeout and keep the invariant |
| Engine.GameEngine.StartGame | client/src/utils/useGameEngine.ts:157-164 | the fields follow the state machine's game start |
| Engine.GameEngine.NicknameTrimmedEmpty | client/src/utils/useGameEngine.ts:158 | the trimmed nickname is empty exactly when the nickname is blank |
| Engine.GameEngine.HoldTick | client/src/utils/useGameEngine.ts:171-194 | the fields follow the state machine's animation frame and keep the invariant |
| Engine.GameEngine.CompleteHold | client/src/utils/useGameEngine.ts:182-193 | the fields follow the state machine's completed hold |

## Left out

- `generateTargetPosition` (client/src/utils/index.ts:17-26) uses `Math.random` and trigonometry. The new target is an input of the preparation timeout event instead.
- Floating point: numbers are exact reals. Rounding errors of IEEE doubles, NaN and infinities are not modelled. `Math.sqrt` is a parameter with the exact-root law.
- The canvas resize effect (useGameEngine.ts:72-83) and `CIRCLE_RADIUS` (line 69) are left out. Only `generateTargetPosition` uses the radius, and the canvas size is fixed for a session.
- `Date.now()`, `requestAnimationFrame` timestamps and `setTimeout` become the time carried by each event. `Session.ClockOk` asks only that a frame not precede the loop's recorded start.
- React scheduling:
  - each event is handled atomically, and the effects run right after it;
  - the cancel-and-reschedule of a frame is one loop state;
  - a timer that React clears is a deadline the model drops.
- The HTTP call (`submitResults`, axios) and its response are left out. The posted payloads are recorded in the state instead.
- The server's storage, and Express's JSON parsing strictness. The body reaches the middleware as a parsed JSON value.
- JSX rendering is left out, as is the seconds text `valueMs / 1000` on each round.
- `BASE_GAME_CONFIG` (`@/constants`) is not part of this model. It is a parameter, and the server's limits of 100 points and 3 rounds are an assumption only where a lemma names `MatchesServer`.
- The state machine tests a blank nickname with `Text.IsBlank` rather than `trim() === ''`. The two are equivalent by `Text.TrimEmptyIffBlank`, and the `Engine` class tests the trimmed string itself (`Engine.GameEngine.NicknameTrimmedEmpty`).
