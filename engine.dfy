/**
 * `useGameEngine` as an object: the hook's state variables are fields, and
 * each handler, timer callback and animation frame is a method that updates
 * them in place and then runs the effects whose dependencies it changed.
 * Every method is proved to agree with the `Session` state machine and to
 * keep its invariant.
 */
module Engine {
  import opened Config
  import opened JsMath
  import opened Text
  import opened Wrappers
  import opened Geometry
  import opened GameTypes
  import opened Scoring
  import opened Wire
  import opened Session

  class GameEngine {
    const env: Env
    var nickname: string
    var gameState: GameState
    var currentRound: nat
    var targetPosition: Point
    var mousePosition: Point
    var mousePath: MousePath
    var roundResults: seq<RoundResult>
    var isInCenter: bool
    var holdProgress: real
    var hold: HoldLoop
    var prepDeadline: Option<real>
    var sent: seq<GameResultRequest>

    /** The fields as a `Session.State`. */
    function Snapshot(): State
      reads this
    {
      State(nickname, gameState, currentRound, targetPosition, mousePosition, mousePath,
            roundResults, isInCenter, holdProgress, hold, prepDeadline, sent)
    }

    ghost predicate Valid()
      reads this
    {
      ValidEnv(env) && Inv(env, Snapshot())
    }

    /** The first render: the initial `useState` values, with no loop, no timeout and nothing posted. */
    constructor (cfg: GameConfig, canvasSize: real, sqrt: real -> real)
      requires IsSqrt(sqrt)
      ensures env == Env(cfg, canvasSize, sqrt)
      ensures Snapshot() == Init()
      ensures Valid()
    {
      env := Env(cfg, canvasSize, sqrt);
      nickname := "";
      gameState := Waiting;
      currentRound := 0;
      targetPosition := Point(0.0, 0.0);
      mousePosition := Point(0.0, 0.0);
      mousePath := MousePath([], 0.0);
      roundResults := [];
      isInCenter := false;
      holdProgress := 0.0;
      hold := Stopped;
      prepDeadline := None;
      sent := [];
      new;
      InitInv(env);
    }

    /** The effects of the render that follows a handler which started from `before`. */
    method RunEffects(before: State, resultsReplaced: bool, now: real)
      modifies this
      ensures Snapshot() == Rerun(env, before, old(Snapshot()), resultsReplaced, now)
    {
      if isInCenter != before.isInCenter || gameState != before.gameState || nickname != before.nickname {
        RunHoldEffect();
      }
      if gameState != before.gameState {
        RunTimerEffect(now);
      }
      if gameState != before.gameState || nickname != before.nickname || resultsReplaced {
        RunSubmitEffect();
      }
    }

    /** The hold effect: start the loop in the centre between games, otherwise cancel it and zero the progress. */
    method RunHoldEffect()
      modifies this
      ensures Snapshot() == HoldEffect(old(Snapshot()))
    {
      if isInCenter && (gameState == Waiting || gameState == Finished) {
        hold := Running(0.0);
      } else {
        hold := Stopped;
        holdProgress := 0.0;
      }
    }

    /** The preparation effect: replace the pending timeout by one for `now` plus the preparation time while preparing. */
    method RunTimerEffect(now: real)
      modifies this
      ensures Snapshot() == TimerEffect(env, old(Snapshot()), now)
    {
      prepDeadline := if gameState == Preparing then Some(now + env.cfg.preparationTime) else None;
    }

    /** The submit effect: post the results once the game is finished. */
    method RunSubmitEffect()
      modifies this
      ensures Snapshot() == SubmitEffect(old(Snapshot()))
    {
      if gameState == Finished {
        sent := sent + [SubmitPayload(nickname, roundResults)];
      }
    }

    /** `setNickNameValue(name)`. */
    method SetNickNameValue(now: real, name: string)
      requires Valid()
      modifies this
      ensures Snapshot() == SetNickname(env, old(Snapshot()), now, name)
      ensures Valid()
    {
      if name == nickname {
        return;
      }
      var before := Snapshot();
      nickname := name;
      RunEffects(before, false, now);
      StepInv(env, before, NicknameEdited(now, name));
    }

    /** `handleMouseMove` for the pointer at canvas coordinates (x, y). */
    method HandleMouseMove(now: real, x: real, y: real)
      requires Valid()
      modifies this
      ensures Snapshot() == Session.HandleMouseMove(env, old(Snapshot()), now, x, y)
      ensures Valid()
    {
      var before := Snapshot();
      var p := Point(x, y);
      mousePosition := p;
      isInCenter := CheckInCenter(env.sqrt, env.cfg, p, CenterX(env), CenterY(env));
      if gameState == Playing {
        mousePath := mousePath.(points := mousePath.points + [p]);
      }
      RunEffects(before, false, now);
      StepInv(env, before, MouseMoved(now, x, y));
    }

    /** `finishRound` at time `now`: score the round, store it, then finish or prepare the next round. */
    method FinishRound(now: real)
      requires Valid() && gameState == Playing
      modifies this
      ensures Snapshot() == Session.FinishRound(env, old(Snapshot()), now)
      ensures Valid()
    {
      var before := Snapshot();
      var accuracy := CalculateAccuracyScore(env.sqrt, env.cfg, mousePath.points, targetPosition, CenterX(env), CenterY(env));
      var distance := DistanceScore(env.sqrt, env.cfg, mousePosition, targetPosition);
      var timeMs := Round(now - mousePath.startTime);
      var timeScore := TimeScore(env.cfg, timeMs as real);
      var result := RoundResult(Round(accuracy), Round(distance), TimeResult(timeMs, Round(timeScore)));
      assert result == RoundResultOf(env, before, now);
      roundResults := roundResults + [result];
      if currentRound + 1 >= env.cfg.roundsCount {
        gameState := Finished;
      } else {
        currentRound := currentRound + 1;
        gameState := Preparing;
      }
      RunEffects(before, true, now);
      ClickInv(env, before, now);
    }

    /** `handleMouseClick`. */
    method HandleMouseClick(now: real)
      requires Valid()
      modifies this
      ensures Snapshot() == Session.HandleMouseClick(env, old(Snapshot()), now)
      ensures Valid()
    {
      if gameState == Playing {
        FinishRound(now);
      }
    }

    /** `startNewRound` with the freshly drawn `target`. */
    method StartNewRound(now: real, target: Point)
      modifies this
      ensures Snapshot() == Session.StartNewRound(env, old(Snapshot()), now, target)
    {
      var before := Snapshot();
      targetPosition := target;
      mousePath := MousePath([], now);
      gameState := Playing;
      RunEffects(before, false, now);
    }

    /** The preparation `setTimeout` callback, delivered at `now`. */
    method PreparationTimerFired(now: real, target: Point)
      requires Valid()
      modifies this
      ensures Snapshot() == Session.PreparationTimerFired(env, old(Snapshot()), now, target)
      ensures Valid()
    {
      var before := Snapshot();
      if prepDeadline.Some? && prepDeadline.value <= now {
        StartNewRound(now, target);
      }
      StepInv(env, before, PreparationTimeout(now, target));
    }

    /** `startGame`: only with a non-blank nickname. */
    method StartGame()
      modifies this
      ensures Snapshot() == Session.StartGame(old(Snapshot()))
    {
      var blank := NicknameTrimmedEmpty();
      if blank {
        return;
      }
      gameState := Preparing;
      currentRound := 0;
      roundResults := [];
    }

    /** `!nickNameValue.trim()`: the nickname is blank. */
    method NicknameTrimmedEmpty() returns (blank: bool)
      ensures blank <==> IsBlank(nickname)
    {
      TrimEmptyIffBlank(nickname);
      blank := Trim(nickname) == "";
    }

    /** One `requestAnimationFrame` callback of the hold loop, at time `now`. */
    method HoldTick(now: real)
      requires Valid() && ClockOk(Snapshot(), now)
      modifies this
      ensures Snapshot() == Session.HoldTick(env, old(Snapshot()), now)
      ensures Valid()
    {
      var before := Snapshot();
      StepInv(env, before, AnimationFrame(now));
      if hold.Stopped? {
        return;
      }
      var startTime := if hold.startTime == 0.0 then now else hold.startTime;
      var progress := Min((now - startTime) / (env.cfg.preparationTime / 2.0), 1.0);
      holdProgress := progress;
      if progress < 1.0 {
        // schedule the next frame while the pointer stays in the centre
        hold := if isInCenter then Running(startTime) else Stopped;
      } else {
        hold := Stopped;
        CompleteHold(now);
        CompleteHoldIgnoresLoop(env, before, progress, now);
      }
    }

    /** The completed hold in the callback: zero the progress, then start or restart the game. */
    method CompleteHold(now: real)
      modifies this
      ensures Snapshot() == Session.CompleteHold(env, old(Snapshot()), now)
    {
      var before := Snapshot();
      holdProgress := 0.0;
      hold := Stopped;
      ghost var t := before.(holdProgress := 0.0, hold := Stopped);
      assert Snapshot() == t;
      if gameState == Waiting {
        StartGame();
        RunEffects(before, !IsBlank(before.nickname), now);
      } else if gameState == Finished {
        currentRound := 0;
        roundResults := [];
        mousePath := MousePath([], 0.0);
        assert Snapshot() == t.(currentRound := 0, roundResults := [], mousePath := MousePath([], 0.0));
        StartGame();
        RunEffects(before, true, now);
      } else {
        RunEffects(before, false, now);
      }
    }
  }
}
