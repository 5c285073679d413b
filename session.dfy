/**
 * The game engine hook as a state machine. A `State` holds every piece of
 * the hook's React state, the hold-to-start animation loop and the pending
 * preparation timeout; each event the browser delivers (a nickname edit, a
 * mouse move, a click, the timeout firing, an animation frame) maps a state
 * to the next one, including the effects React re-runs because one of their
 * dependencies changed.
 */
module Session {
  import opened Config
  import opened JsMath
  import opened Text
  import opened Wrappers
  import opened Geometry
  import opened GameTypes
  import opened Scoring
  import opened Wire
  import Validation
  import Submission

  /** What stays fixed during a session: the configuration, the canvas size, and `Math.sqrt`. */
  datatype Env = Env(cfg: GameConfig, canvasSize: real, sqrt: real -> real)

  ghost predicate ValidEnv(env: Env)
  {
    IsSqrt(env.sqrt)
  }

  function CenterX(env: Env): real { env.canvasSize / 2.0 }
  function CenterY(env: Env): real { env.canvasSize / 2.0 }

  /**
   * The hold-to-start loop of `requestAnimationFrame` callbacks: not
   * scheduled, or scheduled with the start time it has recorded, where 0
   * means none yet (the callback tests `!startTime`).
   */
  datatype HoldLoop = Stopped | Running(startTime: real)

  /** The hook's state, plus the loop, the pending timeout's deadline, and the payloads posted so far. */
  datatype State = State(
    nickname: string,
    gameState: GameState,
    currentRound: nat,
    targetPosition: Point,
    mousePosition: Point,
    mousePath: MousePath,
    roundResults: seq<RoundResult>,
    isInCenter: bool,
    holdProgress: real,
    hold: HoldLoop,
    prepDeadline: Option<real>,
    sent: seq<GameResultRequest>)

  /** The events, each stamped with the time (ms) at which it is delivered. */
  datatype Event =
    | NicknameEdited(now: real, name: string)
    | MouseMoved(now: real, x: real, y: real)
    | Clicked(now: real)
    | PreparationTimeout(now: real, target: Point)
    | AnimationFrame(now: real)

  /** The state of the first render, after its effects ran. */
  function Init(): State
  {
    State("", Waiting, 0, Point(0.0, 0.0), Point(0.0, 0.0), MousePath([], 0.0), [], false, 0.0, Stopped, None, [])
  }

  predicate Idle(g: GameState) { g == Waiting || g == Finished }

  // ---------------------------------------------------------------------
  // Effects

  /**
   * The hold effect (deps `isInCenter`, `gameState`, `startGame`): cancel the
   * running loop; start a fresh one when the pointer is in the centre of an
   * idle game, and otherwise zero the progress.
   */
  function HoldEffect(t: State): State
  {
    if t.isInCenter && Idle(t.gameState) then t.(hold := Running(0.0))
    else t.(hold := Stopped, holdProgress := 0.0)
  }

  /** The preparation effect (dep `gameState`): clear the old timeout; arm a new one while preparing. */
  function TimerEffect(env: Env, t: State, now: real): State
  {
    t.(prepDeadline := if t.gameState == Preparing then Some(now + env.cfg.preparationTime) else None)
  }

  /** The submit effect (deps `gameState`, `roundResults`, `nickNameValue`): post the results once finished. */
  function SubmitEffect(t: State): State
  {
    if t.gameState == Finished then t.(sent := t.sent + [SubmitPayload(t.nickname, t.roundResults)]) else t
  }

  /**
   * The render after a handler turned `s` into `t`: each effect runs when
   * one of its dependencies changed. `startGame` changes with the nickname;
   * `roundResults` changes whenever the handler stored a new array
   * (`resultsReplaced`), even an equal one.
   */
  function Rerun(env: Env, s: State, t: State, resultsReplaced: bool, now: real): State
  {
    var a := if t.isInCenter != s.isInCenter || t.gameState != s.gameState || t.nickname != s.nickname then HoldEffect(t) else t;
    var b := if t.gameState != s.gameState then TimerEffect(env, a, now) else a;
    if t.gameState != s.gameState || t.nickname != s.nickname || resultsReplaced then SubmitEffect(b) else b
  }

  // ---------------------------------------------------------------------
  // Handlers

  /** `setNickNameValue(name)`; React skips the render when the value is unchanged. */
  function SetNickname(env: Env, s: State, now: real, name: string): State
  {
    if name == s.nickname then s else Rerun(env, s, s.(nickname := name), false, now)
  }

  /** `handleMouseMove`: record the position and whether it is in the centre; extend the path while playing. */
  function HandleMouseMove(env: Env, s: State, now: real, x: real, y: real): State
    requires ValidEnv(env)
  {
    var p := Point(x, y);
    var t := s.(
      mousePosition := p,
      isInCenter := CheckInCenter(env.sqrt, env.cfg, p, CenterX(env), CenterY(env)),
      mousePath := if s.gameState == Playing then s.mousePath.(points := s.mousePath.points + [p]) else s.mousePath);
    Rerun(env, s, t, false, now)
  }

  /** The result `finishRound` records at time `now`: the three rounded scores and the rounded duration. */
  function RoundResultOf(env: Env, s: State, now: real): (r: RoundResult)
    requires ValidEnv(env)
    ensures r.accuracyScore == Round(AccuracyScore(env.sqrt, env.cfg, s.mousePath.points, s.targetPosition, CenterX(env), CenterY(env)))
    ensures r.distanceFromCenter == Round(DistanceScore(env.sqrt, env.cfg, s.mousePosition, s.targetPosition))
    ensures r.time.valueMs == Round(now - s.mousePath.startTime)
    ensures r.time.score == Round(TimeScore(env.cfg, r.time.valueMs as real))
    ensures ScoresInRange(r, env.cfg.maxScorePerCategory)
    ensures now >= s.mousePath.startTime ==> r.time.valueMs >= 0
  {
    var maxScore := env.cfg.maxScorePerCategory;
    var accuracy := AccuracyScore(env.sqrt, env.cfg, s.mousePath.points, s.targetPosition, CenterX(env), CenterY(env));
    var distance := DistanceScore(env.sqrt, env.cfg, s.mousePosition, s.targetPosition);
    var timeMs := Round(now - s.mousePath.startTime);
    var timeScore := TimeScore(env.cfg, timeMs as real);
    RoundInRange(accuracy, maxScore);
    RoundInRange(distance, maxScore);
    RoundInRange(timeScore, maxScore);
    RoundResult(Round(accuracy), Round(distance), TimeResult(timeMs, Round(timeScore)))
  }

  /** Of two clicks on the same target, the closer one never records a lower hit score. */
  lemma RecordedDistanceMonotone(env: Env, s1: State, s2: State, now1: real, now2: real)
    requires ValidEnv(env) && s1.targetPosition == s2.targetPosition
    requires Distance(env.sqrt, s1.mousePosition, s1.targetPosition) <= Distance(env.sqrt, s2.mousePosition, s2.targetPosition)
    ensures RoundResultOf(env, s1, now1).distanceFromCenter >= RoundResultOf(env, s2, now2).distanceFromCenter
  {
    var target := s1.targetPosition;
    DistanceScoreMonotone(env.sqrt, env.cfg, s1.mousePosition, s2.mousePosition, target);
    RoundMonotone(DistanceScore(env.sqrt, env.cfg, s2.mousePosition, target), DistanceScore(env.sqrt, env.cfg, s1.mousePosition, target));
  }

  /** A round that lasted a whole number of milliseconds records that number, and scores it. */
  lemma RecordedWholeDuration(env: Env, s: State, now: real, ms: int)
    requires ValidEnv(env) && now - s.mousePath.startTime == ms as real
    ensures RoundResultOf(env, s, now).time.valueMs == ms
    ensures RoundResultOf(env, s, now).time.score == Round(TimeScore(env.cfg, ms as real))
  {
    RoundOfInteger(ms);
  }

  /** `finishRound`: append the round's result, then finish the game or prepare the next round. */
  function FinishRound(env: Env, s: State, now: real): State
    requires ValidEnv(env)
  {
    var t := s.(roundResults := s.roundResults + [RoundResultOf(env, s, now)]);
    var u := if s.currentRound + 1 >= env.cfg.roundsCount then t.(gameState := Finished)
             else t.(currentRound := s.currentRound + 1, gameState := Preparing);
    Rerun(env, s, u, true, now)
  }

  /** `handleMouseClick`: a click counts only while playing. */
  function HandleMouseClick(env: Env, s: State, now: real): State
    requires ValidEnv(env)
  {
    if s.gameState == Playing then FinishRound(env, s, now) else s
  }

  /** `startNewRound`: a new target, an empty path started now, and play. */
  function StartNewRound(env: Env, s: State, now: real, target: Point): State
  {
    Rerun(env, s, s.(targetPosition := target, mousePath := MousePath([], now), gameState := Playing), false, now)
  }

  /** The preparation timeout: it calls `startNewRound` once its deadline has passed. */
  function PreparationTimerFired(env: Env, s: State, now: real, target: Point): State
  {
    if s.prepDeadline.Some? && s.prepDeadline.value <= now then StartNewRound(env, s, now, target) else s
  }

  /**
   * `startGame`: nothing for a blank nickname; otherwise prepare round 0
   * with no results. The test `!nickNameValue.trim()` holds exactly for the
   * blank names (`Text.TrimEmptyIffBlank`).
   */
  function StartGame(s: State): State
  {
    if IsBlank(s.nickname) then s else s.(gameState := Preparing, currentRound := 0, roundResults := [])
  }

  /** `min(elapsed / (PREPARATION_TIME / 2), 1)`. */
  function HoldFraction(env: Env, startTime: real, now: real): real
  {
    Min((now - startTime) / (env.cfg.preparationTime / 2.0), 1.0)
  }

  /**
   * `updateProgress(now)`, one animation frame of the hold loop. The game
   * state and `startGame` it consults are those of the render that started
   * the loop, which are the current ones: any change restarts the loop.
   */
  function HoldTick(env: Env, s: State, now: real): State
  {
    match s.hold
    case Stopped => s
    case Running(start) =>
      var startTime := if start == 0.0 then now else start;
      var progress := HoldFraction(env, startTime, now);
      if progress < 1.0 && s.isInCenter then s.(holdProgress := progress, hold := Running(startTime))
      else if progress < 1.0 then s.(holdProgress := progress, hold := Stopped)
      else CompleteHold(env, s, now)
  }

  /**
   * The completed hold: start the first game from `waiting`, or clear the
   * results and start again from `finished`; the progress goes back to 0
   * (React batches the two progress updates of the callback into the last).
   */
  function CompleteHold(env: Env, s: State, now: real): State
  {
    var t := s.(holdProgress := 0.0, hold := Stopped);
    if s.gameState == Waiting then Rerun(env, s, StartGame(t), !IsBlank(s.nickname), now)
    else if s.gameState == Finished
    then Rerun(env, s, StartGame(t.(currentRound := 0, roundResults := [], mousePath := MousePath([], 0.0))), true, now)
    else Rerun(env, s, t, false, now)
  }

  /** The state after event `e`. */
  function Step(env: Env, s: State, e: Event): State
    requires ValidEnv(env)
  {
    match e
    case NicknameEdited(now, name) => SetNickname(env, s, now, name)
    case MouseMoved(now, x, y) => HandleMouseMove(env, s, now, x, y)
    case Clicked(now) => HandleMouseClick(env, s, now)
    case PreparationTimeout(now, target) => PreparationTimerFired(env, s, now, target)
    case AnimationFrame(now) => HoldTick(env, s, now)
  }

  // ---------------------------------------------------------------------
  // The invariant

  /** Round number and results by phase, and every stored result in range. */
  predicate PhaseInv(env: Env, s: State)
  {
    var n := env.cfg.roundsCount;
    && (s.gameState == Waiting ==> s.currentRound == 0 && s.roundResults == [])
    && (s.gameState == Preparing || s.gameState == Playing ==> s.currentRound < n && |s.roundResults| == s.currentRound)
    && (s.gameState == Finished ==>
          (|s.roundResults| == n && s.currentRound == n - 1) || (s.roundResults == [] && s.currentRound == 0))
    && forall i :: 0 <= i < |s.roundResults| ==> ScoresInRange(s.roundResults[i], env.cfg.maxScorePerCategory)
  }

  /** The hold progress lies in `[0, 1)`; the loop runs only in the centre of an idle game, and progress is 0 without it. */
  predicate HoldInv(s: State)
  {
    && 0.0 <= s.holdProgress < 1.0
    && (s.hold.Running? ==> s.isInCenter && Idle(s.gameState))
    && (s.hold.Stopped? ==> s.holdProgress == 0.0)
  }

  /** A preparation timeout is pending exactly while preparing. */
  predicate TimerInv(s: State)
  {
    s.prepDeadline.Some? <==> s.gameState == Preparing
  }

  /** Every posted payload carries all the rounds or none, each with in-range scores. */
  predicate SentInv(env: Env, s: State)
  {
    forall k :: 0 <= k < |s.sent| ==>
      && (|s.sent[k].rounds| == env.cfg.roundsCount || |s.sent[k].rounds| == 0)
      && forall i :: 0 <= i < |s.sent[k].rounds| ==> ScoresInRange(FromWire(s.sent[k].rounds[i]), env.cfg.maxScorePerCategory)
  }

  predicate Inv(env: Env, s: State)
  {
    PhaseInv(env, s) && HoldInv(s) && TimerInv(s) && SentInv(env, s)
  }

  /** Animation frame times do not run backwards past the start the loop recorded. */
  predicate ClockOk(s: State, now: real)
  {
    s.hold.Running? && s.hold.startTime != 0.0 ==> s.hold.startTime <= now
  }

  /** The first render satisfies the invariant. */
  lemma InitInv(env: Env)
    ensures Inv(env, Init())
  {
  }

  /** Posting from a state that satisfies the phase invariant keeps the payload invariant. */
  lemma SubmitEffectInv(env: Env, b: State)
    requires PhaseInv(env, b) && SentInv(env, b)
    ensures SentInv(env, SubmitEffect(b))
  {
    if b.gameState == Finished {
      var sent := SubmitEffect(b).sent;
      var p := SubmitPayload(b.nickname, b.roundResults);
      assert sent == b.sent + [p];
      forall k | 0 <= k < |sent|
        ensures && (|sent[k].rounds| == env.cfg.roundsCount || |sent[k].rounds| == 0)
                && forall i :: 0 <= i < |sent[k].rounds| ==> ScoresInRange(FromWire(sent[k].rounds[i]), env.cfg.maxScorePerCategory)
      {
        if k == |b.sent| {
          assert sent[k] == p;
        } else {
          assert sent[k] == b.sent[k];
        }
      }
    }
  }

  /**
   * The effects restore the invariant after a handler: the hold and timer
   * parts need only hold already when the effect that would fix them does
   * not run.
   */
  lemma RerunInv(env: Env, s: State, t: State, resultsReplaced: bool, now: real)
    requires Inv(env, s) && PhaseInv(env, t) && SentInv(env, t) && 0.0 <= t.holdProgress < 1.0
    requires t.isInCenter == s.isInCenter && t.gameState == s.gameState && t.nickname == s.nickname ==> HoldInv(t)
    requires t.gameState == s.gameState ==> TimerInv(t)
    ensures Inv(env, Rerun(env, s, t, resultsReplaced, now))
  {
    var a := if t.isInCenter != s.isInCenter || t.gameState != s.gameState || t.nickname != s.nickname then HoldEffect(t) else t;
    var b := if t.gameState != s.gameState then TimerEffect(env, a, now) else a;
    assert b.gameState == t.gameState && b.currentRound == t.currentRound;
    assert b.roundResults == t.roundResults && b.sent == t.sent;
    assert PhaseInv(env, b) && SentInv(env, b);
    assert HoldInv(b) && TimerInv(b);
    SubmitEffectInv(env, b);
  }

  /** Every event keeps the invariant. */
  lemma StepInv(env: Env, s: State, e: Event)
    requires ValidEnv(env) && Inv(env, s) && (e.AnimationFrame? ==> ClockOk(s, e.now))
    ensures Inv(env, Step(env, s, e))
  {
    match e
    case NicknameEdited(now, name) =>
      if name != s.nickname {
        RerunInv(env, s, s.(nickname := name), false, now);
      }
    case MouseMoved(now, x, y) =>
      var p := Point(x, y);
      var t := s.(
        mousePosition := p,
        isInCenter := CheckInCenter(env.sqrt, env.cfg, p, CenterX(env), CenterY(env)),
        mousePath := if s.gameState == Playing then s.mousePath.(points := s.mousePath.points + [p]) else s.mousePath);
      RerunInv(env, s, t, false, now);
    case Clicked(now) =>
      if s.gameState == Playing {
        ClickInv(env, s, now);
      }
    case PreparationTimeout(now, target) =>
      if s.prepDeadline.Some? && s.prepDeadline.value <= now {
        RerunInv(env, s, s.(targetPosition := target, mousePath := MousePath([], now), gameState := Playing), false, now);
      }
    case AnimationFrame(now) =>
      HoldTickInv(env, s, now);
  }

  lemma ClickInv(env: Env, s: State, now: real)
    requires ValidEnv(env) && Inv(env, s) && s.gameState == Playing
    ensures Inv(env, FinishRound(env, s, now))
  {
    var r := RoundResultOf(env, s, now);
    var t := s.(roundResults := s.roundResults + [r]);
    var u := if s.currentRound + 1 >= env.cfg.roundsCount then t.(gameState := Finished)
             else t.(currentRound := s.currentRound + 1, gameState := Preparing);
    assert forall i :: 0 <= i < |u.roundResults| ==> ScoresInRange(u.roundResults[i], env.cfg.maxScorePerCategory) by {
      forall i | 0 <= i < |u.roundResults|
        ensures ScoresInRange(u.roundResults[i], env.cfg.maxScorePerCategory)
      {
        if i < |s.roundResults| {
          assert u.roundResults[i] == s.roundResults[i];
        }
      }
    }
    RerunInv(env, s, u, true, now);
  }

  lemma HoldTickInv(env: Env, s: State, now: real)
    requires Inv(env, s) && ClockOk(s, now)
    ensures Inv(env, HoldTick(env, s, now))
  {
    if s.hold.Running? {
      var start := s.hold.startTime;
      var startTime := if start == 0.0 then now else start;
      QuotientFacts(now - startTime, env.cfg.preparationTime / 2.0);
      var progress := HoldFraction(env, startTime, now);
      if progress >= 1.0 {
        CompleteHoldInv(env, s, now);
      }
    }
  }

  lemma CompleteHoldInv(env: Env, s: State, now: real)
    requires Inv(env, s)
    ensures Inv(env, CompleteHold(env, s, now))
  {
    var t := s.(holdProgress := 0.0, hold := Stopped);
    if s.gameState == Waiting {
      RerunInv(env, s, StartGame(t), !IsBlank(s.nickname), now);
    } else if s.gameState == Finished {
      RerunInv(env, s, StartGame(t.(currentRound := 0, roundResults := [], mousePath := MousePath([], 0.0))), true, now);
    } else {
      RerunInv(env, s, t, false, now);
    }
  }

  // ---------------------------------------------------------------------
  // Behaviour

  /** A click outside play changes nothing. */
  lemma ClickIgnoredUnlessPlaying(env: Env, s: State, now: real)
    requires ValidEnv(env) && s.gameState != Playing
    ensures HandleMouseClick(env, s, now) == s
  {
  }

  /**
   * A click during play stores the round's result; after the last round
   * the game is finished and the results are posted once, otherwise the
   * next round is prepared and its timeout armed.
   */
  lemma ClickFinishesRound(env: Env, s: State, now: real)
    requires ValidEnv(env) && Inv(env, s) && s.gameState == Playing
    ensures var r := HandleMouseClick(env, s, now);
      && r.roundResults == s.roundResults + [RoundResultOf(env, s, now)]
      && (s.currentRound + 1 == env.cfg.roundsCount ==>
            && r.gameState == Finished && r.currentRound == s.currentRound && r.prepDeadline == None
            && |r.roundResults| == env.cfg.roundsCount
            && r.sent == s.sent + [SubmitPayload(s.nickname, r.roundResults)])
      && (s.currentRound + 1 < env.cfg.roundsCount ==>
            && r.gameState == Preparing && r.currentRound == s.currentRound + 1
            && r.prepDeadline == Some(now + env.cfg.preparationTime)
            && r.sent == s.sent)
  {
  }

  /** A pointer move records the position, tests the centre disc, extends the path only in play, and never posts. */
  lemma MouseMoveFacts(env: Env, s: State, now: real, x: real, y: real)
    requires ValidEnv(env)
    ensures var r := HandleMouseMove(env, s, now, x, y);
      && r.mousePosition == Point(x, y)
      && (r.isInCenter <==> (x - CenterX(env)) * (x - CenterX(env)) + (y - CenterY(env)) * (y - CenterY(env))
                            <= env.cfg.centerTolerance * env.cfg.centerTolerance)
      && r.mousePath == (if s.gameState == Playing then s.mousePath.(points := s.mousePath.points + [Point(x, y)]) else s.mousePath)
      && r.gameState == s.gameState && r.roundResults == s.roundResults && r.sent == s.sent
  {
    CheckInCenterIff(env.sqrt, env.cfg, Point(x, y), CenterX(env), CenterY(env));
  }

  /** Play starts only when the preparation timeout fires. */
  lemma PlayingOnlyViaTimer(env: Env, s: State, e: Event)
    requires ValidEnv(env) && TimerInv(s) && s.gameState != Playing
    requires Step(env, s, e).gameState == Playing
    ensures e.PreparationTimeout? && s.gameState == Preparing
    ensures Step(env, s, e).mousePath == MousePath([], e.now) && Step(env, s, e).targetPosition == e.target
  {
    match e
    case NicknameEdited(now, name) =>
      RerunFields(env, s, s.(nickname := name), false, now);
    case MouseMoved(now, x, y) =>
      MouseMoveFacts(env, s, now, x, y);
    case Clicked(now) =>
    case PreparationTimeout(now, target) =>
      if s.prepDeadline.Some? && s.prepDeadline.value <= now {
        RerunFields(env, s, s.(targetPosition := target, mousePath := MousePath([], now), gameState := Playing), false, now);
      }
    case AnimationFrame(now) =>
      HoldTickFields(env, s, now);
  }

  /** The timeout fires once: starting play disarms it. */
  lemma TimerFiresOnce(env: Env, s: State, now: real, target: Point)
    requires s.prepDeadline.Some? && s.prepDeadline.value <= now && s.gameState == Preparing
    ensures var r := PreparationTimerFired(env, s, now, target);
      r.gameState == Playing && r.prepDeadline == None && r.roundResults == s.roundResults && r.sent == s.sent
  {
  }

  /** The hold is complete once half the preparation time has passed since the loop's first frame. */
  lemma HoldFractionFacts(env: Env, startTime: real, now: real)
    requires startTime <= now
    ensures HoldFraction(env, startTime, now) >= 1.0 <==> now - startTime >= env.cfg.preparationTime / 2.0
    ensures now - startTime < env.cfg.preparationTime / 2.0 ==>
      HoldFraction(env, startTime, now) == (now - startTime) / (env.cfg.preparationTime / 2.0)
    ensures 0.0 <= HoldFraction(env, startTime, now) <= 1.0
  {
    QuotientFacts(now - startTime, env.cfg.preparationTime / 2.0);
  }

  /** Whether the frame at `now` completes the hold of a running loop. */
  predicate HoldCompletes(env: Env, s: State, now: real)
  {
    s.hold.Running? && HoldFraction(env, if s.hold.startTime == 0.0 then now else s.hold.startTime, now) >= 1.0
  }

  /** A frame that does not complete the hold keeps the loop going in the centre, with the progress so far. */
  lemma HoldTickInProgress(env: Env, s: State, now: real)
    requires Inv(env, s) && ClockOk(s, now) && s.hold.Running? && !HoldCompletes(env, s, now)
    ensures var r := HoldTick(env, s, now);
      && r.hold.Running? && 0.0 <= r.holdProgress < 1.0
      && r.holdProgress == HoldFraction(env, r.hold.startTime, now)
      && r == s.(holdProgress := r.holdProgress, hold := r.hold)
  {
    var start := if s.hold.startTime == 0.0 then now else s.hold.startTime;
    HoldFractionFacts(env, start, now);
  }

  /** Holding the centre before the first game with a nickname starts preparing round 0 and arms its timeout. */
  lemma HoldStartsGame(env: Env, s: State, now: real)
    requires Inv(env, s) && s.gameState == Waiting && HoldCompletes(env, s, now) && !IsBlank(s.nickname)
    ensures var r := HoldTick(env, s, now);
      && r.gameState == Preparing && r.currentRound == 0 && r.roundResults == []
      && r.prepDeadline == Some(now + env.cfg.preparationTime)
      && r.holdProgress == 0.0 && r.hold == Stopped && r.sent == s.sent
  {
    HoldTickCompletes(env, s, now);
    var t := s.(holdProgress := 0.0, hold := Stopped);
    var u := t.(gameState := Preparing, currentRound := 0, roundResults := []);
    assert StartGame(t) == u;
    assert CompleteHold(env, s, now) == Rerun(env, s, u, true, now);
    RerunFields(env, s, u, true, now);
    RerunEntersPreparing(env, s, u, true, now);
  }

  /** Holding the centre after a game with a nickname clears the results and prepares a new game. */
  lemma HoldRestartsGame(env: Env, s: State, now: real)
    requires Inv(env, s) && s.gameState == Finished && HoldCompletes(env, s, now) && !IsBlank(s.nickname)
    ensures var r := HoldTick(env, s, now);
      && r.gameState == Preparing && r.currentRound == 0 && r.roundResults == [] && r.mousePath == MousePath([], 0.0)
      && r.prepDeadline == Some(now + env.cfg.preparationTime)
      && r.holdProgress == 0.0 && r.hold == Stopped && r.sent == s.sent
  {
    HoldTickCompletes(env, s, now);
    var t := s.(holdProgress := 0.0, hold := Stopped, currentRound := 0, roundResults := [], mousePath := MousePath([], 0.0));
    var u := t.(gameState := Preparing, currentRound := 0, roundResults := []);
    assert StartGame(t) == u;
    assert CompleteHold(env, s, now) == Rerun(env, s, u, true, now);
    RerunFields(env, s, u, true, now);
    RerunEntersPreparing(env, s, u, true, now);
  }

  /** Entering `preparing` stops the hold loop, arms the timeout and posts nothing. */
  lemma RerunEntersPreparing(env: Env, s: State, u: State, resultsReplaced: bool, now: real)
    requires s.gameState != Preparing && u.gameState == Preparing
    ensures var r := Rerun(env, s, u, resultsReplaced, now);
      r.prepDeadline == Some(now + env.cfg.preparationTime) && r.hold == Stopped && r.holdProgress == 0.0 && r.sent == u.sent
  {
  }

  /** The completed hold does not depend on the loop fields it overwrites. */
  lemma CompleteHoldIgnoresLoop(env: Env, s: State, progress: real, now: real)
    ensures CompleteHold(env, s.(holdProgress := progress, hold := Stopped), now) == CompleteHold(env, s, now)
  {
  }

  /** A frame after the hold time has passed completes the hold. */
  lemma HoldTickCompletes(env: Env, s: State, now: real)
    requires HoldCompletes(env, s, now)
    ensures HoldTick(env, s, now) == CompleteHold(env, s, now)
  {
  }

  /** With a blank nickname a completed hold before the first game only stops the loop. */
  lemma HoldWithBlankNicknameWaits(env: Env, s: State, now: real)
    requires Inv(env, s) && s.gameState == Waiting && HoldCompletes(env, s, now) && IsBlank(s.nickname)
    ensures HoldTick(env, s, now) == s.(holdProgress := 0.0, hold := Stopped)
  {
  }

  /**
   * With a blank nickname a completed hold after a game still clears the
   * results, stays finished, and posts a payload with no rounds.
   */
  lemma HoldWithBlankNicknameAfterGame(env: Env, s: State, now: real)
    requires Inv(env, s) && s.gameState == Finished && HoldCompletes(env, s, now) && IsBlank(s.nickname)
    ensures var r := HoldTick(env, s, now);
      && r.gameState == Finished && r.currentRound == 0 && r.roundResults == []
      && r.sent == s.sent + [SubmitPayload(s.nickname, [])]
      && |SubmitPayload(s.nickname, []).rounds| == 0
  {
  }

  /** Editing the nickname after a game posts the results again under the new name. */
  lemma NicknameEditAfterGameResubmits(env: Env, s: State, now: real, name: string)
    requires s.gameState == Finished && name != s.nickname
    ensures var r := SetNickname(env, s, now, name);
      r.nickname == name && r.roundResults == s.roundResults
      && r.sent == s.sent + [SubmitPayload(name, s.roundResults)]
  {
  }

  /**
   * Posting only appends, at most one payload per event, and only while
   * finished: the new payload carries the nickname and results of the
   * state after the event.
   */
  lemma StepSends(env: Env, s: State, e: Event)
    requires ValidEnv(env)
    ensures var r := Step(env, s, e);
      && s.sent <= r.sent && |r.sent| <= |s.sent| + 1
      && (|r.sent| == |s.sent| + 1 ==> r.gameState == Finished && r.sent[|s.sent|] == SubmitPayload(r.nickname, r.roundResults))
  {
    match e
    case NicknameEdited(now, name) =>
      RerunFields(env, s, s.(nickname := name), false, now);
    case MouseMoved(now, x, y) =>
      MouseMoveFacts(env, s, now, x, y);
    case Clicked(now) =>
      if s.gameState == Playing {
        var t := s.(roundResults := s.roundResults + [RoundResultOf(env, s, now)]);
        var u := if s.currentRound + 1 >= env.cfg.roundsCount then t.(gameState := Finished)
                 else t.(currentRound := s.currentRound + 1, gameState := Preparing);
        RerunFields(env, s, u, true, now);
      }
    case PreparationTimeout(now, target) =>
      if s.prepDeadline.Some? && s.prepDeadline.value <= now {
        RerunFields(env, s, s.(targetPosition := target, mousePath := MousePath([], now), gameState := Playing), false, now);
      }
    case AnimationFrame(now) =>
      HoldTickFields(env, s, now);
  }

  /** The effects touch only the loop, the progress, the timeout and the posted payloads; posting appends one payload of the finished state. */
  lemma RerunFields(env: Env, s: State, t: State, resultsReplaced: bool, now: real)
    ensures var r := Rerun(env, s, t, resultsReplaced, now);
      && r.nickname == t.nickname && r.gameState == t.gameState && r.currentRound == t.currentRound
      && r.targetPosition == t.targetPosition && r.mousePosition == t.mousePosition && r.mousePath == t.mousePath
      && r.roundResults == t.roundResults && r.isInCenter == t.isInCenter
      && (r.sent == t.sent || (t.gameState == Finished && r.sent == t.sent + [SubmitPayload(t.nickname, t.roundResults)]))
  {
    var a := if t.isInCenter != s.isInCenter || t.gameState != s.gameState || t.nickname != s.nickname then HoldEffect(t) else t;
    var b := if t.gameState != s.gameState then TimerEffect(env, a, now) else a;
    assert b == t.(hold := b.hold, holdProgress := b.holdProgress, prepDeadline := b.prepDeadline);
  }

  /** An animation frame changes the game only through a completed hold, and posts like any other render. */
  lemma HoldTickFields(env: Env, s: State, now: real)
    ensures var r := HoldTick(env, s, now);
      && (r.gameState == Playing ==> s.gameState == Playing)
      && (r.mousePath == s.mousePath || r.mousePath == MousePath([], 0.0))
      && r.targetPosition == s.targetPosition
      && (r.sent == s.sent || (r.gameState == Finished && r.sent == s.sent + [SubmitPayload(r.nickname, r.roundResults)]))
  {
    if HoldCompletes(env, s, now) {
      var t := s.(holdProgress := 0.0, hold := Stopped);
      if s.gameState == Waiting {
        RerunFields(env, s, StartGame(t), !IsBlank(s.nickname), now);
      } else if s.gameState == Finished {
        RerunFields(env, s, StartGame(t.(currentRound := 0, roundResults := [], mousePath := MousePath([], 0.0))), true, now);
      } else {
        RerunFields(env, s, t, false, now);
      }
    }
  }

  /**
   * Under the server's configuration, the server takes a payload the game
   * posted exactly when its nickname is 1 to 50 UTF-16 units long, it holds
   * all three rounds, and every round lasted a positive number of
   * milliseconds: the scores themselves are always in range.
   */
  lemma SentPayloadVerdict(env: Env, s: State, k: nat)
    requires Inv(env, s) && MatchesServer(env.cfg) && k < |s.sent|
    ensures var p := s.sent[k];
      Validation.Validate(RequestToJson(p)) == Validation.Next
      <==> && 1 <= Utf16Length(p.nickname) <= Validation.MaxNicknameLength
           && |p.rounds| == Validation.RequiredRounds
           && forall i :: 0 <= i < |p.rounds| ==> p.rounds[i].time.valueMs > 0
  {
    var p := s.sent[k];
    Submission.RequestAcceptedIff(p);
    forall i | 0 <= i < |p.rounds|
      ensures Submission.PostedRoundInRange(p.rounds[i]) <==> p.rounds[i].time.valueMs > 0
    {
      WireRoundTrip(FromWire(p.rounds[i]), p.rounds[i]);
      assert ScoresInRange(FromWire(p.rounds[i]), env.cfg.maxScorePerCategory);
    }
  }
}
