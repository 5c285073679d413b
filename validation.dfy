/**
 * The server's `validateGameResult` middleware: an ordered cascade of checks
 * on the posted body `{ nickname, rounds }`. The first failing check answers
 * 400 with its message; if none fails, `next()` hands the request on.
 */
module Validation {
  import opened JsMath
  import opened Text
  import opened JsValues

  /** The failing check of a round, in the order the checks run. */
  datatype RoundCheck =
    | BadFieldTypes
    | BadTimeTypes
    | BadAccuracy
    | BadDistance
    | BadValueMs
    | BadTimeScore
    | NotIntegers

  /** Which check turned the request away. */
  datatype ValidationError =
    | MissingFields
    | InvalidTypes
    | NicknameLength
    | RoundsCount
    | RoundError(index: nat, check: RoundCheck)

  /** How the middleware ends: `next()`, a 400 response, or an exception thrown out of it. */
  datatype Outcome = Next | BadRequest(error: ValidationError) | Thrown

  const MaxNicknameLength: nat := 50
  const RequiredRounds: nat := 3
  const MaxScore: real := 100.0

  /** The text after `Round ${i + 1}: ` in a per-round message. */
  function RoundCheckText(c: RoundCheck): string
  {
    match c
    case BadFieldTypes => "accuracy_score and distance_from_center must be numbers, time must be object"
    case BadTimeTypes => "time.value_ms and time.score must be numbers"
    case BadAccuracy => "accuracy_score must be between 0 and 100"
    case BadDistance => "distance_from_center must be between 0 and 100"
    case BadValueMs => "time.value_ms must be positive"
    case BadTimeScore => "time.score must be between 0 and 100"
    case NotIntegers => "accuracy_score, distance_from_center, and time.score must be integers"
  }

  /** The `error` field of the 400 response body; round `i` is numbered `i + 1`. */
  function Message(e: ValidationError): (m: string)
    ensures e.RoundError? ==> "Round " + IntToString(e.index + 1) + ": " <= m
  {
    match e
    case MissingFields => "Missing required fields: nickname and rounds"
    case InvalidTypes => "Invalid data types: nickname must be string, rounds must be array"
    case NicknameLength => "Nickname must be between 1 and 50 characters"
    case RoundsCount => "Must contain exactly 3 rounds"
    case RoundError(i, c) =>
      "Round " + IntToString(i + 1) + ": " + RoundCheckText(c)
  }

  /** Two per-round messages that read the same name the same round. */
  lemma MessageNamesRound(e1: ValidationError, e2: ValidationError)
    requires e1.RoundError? && e2.RoundError? && Message(e1) == Message(e2)
    ensures e1.index == e2.index
  {
    var a: nat, b: nat := e1.index + 1, e2.index + 1;
    assert IntToString(a) == NatToString(a) && IntToString(b) == NatToString(b);
    NumeralHeadUnique(Message(e1), NatToString(a), NatToString(b));
    NatToStringInjective(a, b);
  }

  /** A message has at most one numeral between "Round " and ": ". */
  lemma NumeralHeadUnique(m: string, n1: string, n2: string)
    requires forall k :: 0 <= k < |n1| ==> IsDigit(n1[k])
    requires forall k :: 0 <= k < |n2| ==> IsDigit(n2[k])
    requires "Round " + n1 + ": " <= m && "Round " + n2 + ": " <= m
    ensures n1 == n2
  {
    var h1, h2 := "Round " + n1 + ": ", "Round " + n2 + ": ";
    assert forall k :: 0 <= k < |n1| ==> m[6 + k] == h1[6 + k] == n1[k];
    assert forall k :: 0 <= k < |n2| ==> m[6 + k] == h2[6 + k] == n2[k];
    assert m[6 + |n1|] == h1[6 + |n1|] == ':';
    assert m[6 + |n2|] == h2[6 + |n2|] == ':';
    assert |n1| == |n2|;
    assert n1 == m[6..6 + |n1|] == n2;
  }

  /** The checks on `rounds[i]`, in source order; `Thrown` where reading a property of the round throws. */
  function CheckRound(round: JsValue, i: nat): (o: Outcome)
    ensures o == Thrown <==> !HasProperties(round)
    ensures o.BadRequest? ==> o.error.RoundError? && o.error.index == i
  {
    if !HasProperties(round) then Thrown
    else
      var accuracy, distance, time :=
        Field(round, "accuracy_score"), Field(round, "distance_from_center"), Field(round, "time");
      if TypeOf(accuracy) != "number" || TypeOf(distance) != "number" || TypeOf(time) != "object" || time == Null then
        BadRequest(RoundError(i, BadFieldTypes))
      else
        var valueMs, score := Field(time, "value_ms"), Field(time, "score");
        if TypeOf(valueMs) != "number" || TypeOf(score) != "number" then BadRequest(RoundError(i, BadTimeTypes))
        else if accuracy.n < 0.0 || accuracy.n > MaxScore then BadRequest(RoundError(i, BadAccuracy))
        else if distance.n < 0.0 || distance.n > MaxScore then BadRequest(RoundError(i, BadDistance))
        else if valueMs.n <= 0.0 then BadRequest(RoundError(i, BadValueMs))
        else if score.n < 0.0 || score.n > MaxScore then BadRequest(RoundError(i, BadTimeScore))
        else if !IsInteger(accuracy.n) || !IsInteger(distance.n) || !IsInteger(score.n) then
          BadRequest(RoundError(i, NotIntegers))
        else Next
  }

  /** The loop over `rounds` from index `i` on: the first round that fails decides. */
  function CheckRounds(rounds: seq<JsValue>, i: nat): (o: Outcome)
    requires i <= |rounds|
    decreases |rounds| - i
  {
    if i == |rounds| then Next
    else if CheckRound(rounds[i], i) != Next then CheckRound(rounds[i], i)
    else CheckRounds(rounds, i + 1)
  }

  /** `validateGameResult` applied to `req.body`. */
  function Validate(body: JsValue): Outcome
  {
    if !HasProperties(body) then Thrown
    else
      var nickname, rounds := Field(body, "nickname"), Field(body, "rounds");
      if !Truthy(nickname) || !Truthy(rounds) then BadRequest(MissingFields)
      else if TypeOf(nickname) != "string" || !rounds.Array? then BadRequest(InvalidTypes)
      else if Utf16Length(nickname.s) < 1 || Utf16Length(nickname.s) > MaxNicknameLength then BadRequest(NicknameLength)
      else if |rounds.items| != RequiredRounds then BadRequest(RoundsCount)
      else CheckRounds(rounds.items, 0)
  }

  // ---------------------------------------------------------------------
  // The accepted bodies, stated without the cascade

  /** An integral number in `[0, 100]`. */
  predicate IsScore(v: JsValue)
  {
    v.Number? && 0.0 <= v.n <= MaxScore && IsInteger(v.n)
  }

  /** A round the server takes: an object with three integral scores in range and a positive duration. */
  predicate RoundOk(v: JsValue)
  {
    && v.Object?
    && IsScore(Field(v, "accuracy_score"))
    && IsScore(Field(v, "distance_from_center"))
    && Field(v, "time").Object?
    && Field(Field(v, "time"), "value_ms").Number?
    && Field(Field(v, "time"), "value_ms").n > 0.0
    && IsScore(Field(Field(v, "time"), "score"))
  }

  /** A body the server takes: a 1 to 50 unit nickname string and exactly three good rounds. */
  predicate Accepts(body: JsValue)
  {
    && body.Object?
    && Field(body, "nickname").Str?
    && 1 <= Utf16Length(Field(body, "nickname").s) <= MaxNicknameLength
    && Field(body, "rounds").Array?
    && |Field(body, "rounds").items| == RequiredRounds
    && forall i :: 0 <= i < RequiredRounds ==> RoundOk(Field(body, "rounds").items[i])
  }

  /** A round passes its checks exactly when it is a good round. */
  lemma CheckRoundNextIff(round: JsValue, i: nat)
    ensures CheckRound(round, i) == Next <==> RoundOk(round)
  {
  }

  /** The loop reaches its end exactly when every remaining round is good. */
  lemma {:induction false} CheckRoundsNextIff(rounds: seq<JsValue>, i: nat)
    requires i <= |rounds|
    ensures CheckRounds(rounds, i) == Next <==> forall k :: i <= k < |rounds| ==> RoundOk(rounds[k])
    decreases |rounds| - i
  {
    if i < |rounds| {
      CheckRoundNextIff(rounds[i], i);
      CheckRoundsNextIff(rounds, i + 1);
    }
  }

  /** `next()` is reached exactly for the accepted bodies. */
  lemma ValidateNextIff(body: JsValue)
    ensures Validate(body) == Next <==> Accepts(body)
  {
    if HasProperties(body) && Field(body, "rounds").Array? {
      CheckRoundsNextIff(Field(body, "rounds").items, 0);
    }
  }

  /** The loop answers with the checks of the first bad round, which its message numbers `j + 1`. */
  lemma {:induction false} CheckRoundsFirstFailure(rounds: seq<JsValue>, i: nat, j: nat)
    requires i <= j < |rounds|
    requires forall k :: i <= k < j ==> RoundOk(rounds[k])
    requires !RoundOk(rounds[j])
    ensures CheckRounds(rounds, i) == CheckRound(rounds[j], j) != Next
    decreases j - i
  {
    CheckRoundNextIff(rounds[i], i);
    if i < j {
      CheckRoundsFirstFailure(rounds, i + 1, j);
    } else {
      CheckRoundNextIff(rounds[j], j);
    }
  }

  /** An empty nickname is reported as missing, not as too short. */
  lemma EmptyNicknameIsMissing(body: JsValue)
    requires body.Object? && Field(body, "nickname") == Str("")
    ensures Validate(body) == BadRequest(MissingFields)
  {
  }

  /**
   * The length message only ever reports a nickname longer than 50 code
   * units: an empty one was already turned away as missing.
   */
  lemma NicknameLengthMeansTooLong(body: JsValue)
    requires Validate(body) == BadRequest(NicknameLength)
    ensures Field(body, "nickname").Str? && Utf16Length(Field(body, "nickname").s) > MaxNicknameLength
  {
    if HasProperties(body) && Field(body, "rounds").Array? {
      CheckRoundsError(Field(body, "rounds").items, 0);
    }
  }

  /** A well-formed round with full scores and the given duration. */
  function SampleRound(valueMs: real): JsValue
  {
    Object(map[
      "accuracy_score" := Number(100.0),
      "distance_from_center" := Number(100.0),
      "time" := Object(map["value_ms" := Number(valueMs), "score" := Number(100.0)])])
  }

  /** The duration is only required to be positive: half a millisecond passes, zero does not. */
  lemma DurationNeedNotBeInteger()
    ensures CheckRound(SampleRound(0.5), 0) == Next
    ensures CheckRound(SampleRound(0.0), 0) == BadRequest(RoundError(0, BadValueMs))
  {
    assert IsInteger(100.0);
  }

  /** Every error the loop reports is a per-round one. */
  lemma {:induction false} CheckRoundsError(rounds: seq<JsValue>, i: nat)
    requires i <= |rounds|
    ensures CheckRounds(rounds, i).BadRequest? ==> CheckRounds(rounds, i).error.RoundError?
    decreases |rounds| - i
  {
    if i < |rounds| {
      CheckRoundsError(rounds, i + 1);
    }
  }

  // ---------------------------------------------------------------------
  // Which error a rejected body gets

  /** The position of a round check in the order the checks run. */
  function CheckRank(c: RoundCheck): nat
  {
    match c
    case BadFieldTypes => 0
    case BadTimeTypes => 1
    case BadAccuracy => 2
    case BadDistance => 3
    case BadValueMs => 4
    case BadTimeScore => 5
    case NotIntegers => 6
  }

  /** A number outside `[0, 100]`. */
  predicate OutOfRange(v: JsValue)
  {
    v.Number? && !(0.0 <= v.n <= MaxScore)
  }

  /** A number with a fractional part. */
  predicate Fractional(v: JsValue)
  {
    v.Number? && !IsInteger(v.n)
  }

  /** Whether check `c`, taken on its own, objects to `round`. */
  predicate CheckFails(round: JsValue, c: RoundCheck)
    requires HasProperties(round)
  {
    var accuracy, distance, time :=
      Field(round, "accuracy_score"), Field(round, "distance_from_center"), Field(round, "time");
    var valueMs := if HasProperties(time) then Field(time, "value_ms") else Undefined;
    var score := if HasProperties(time) then Field(time, "score") else Undefined;
    match c
    case BadFieldTypes => !accuracy.Number? || !distance.Number? || !(time.Array? || time.Object?)
    case BadTimeTypes => !valueMs.Number? || !score.Number?
    case BadAccuracy => OutOfRange(accuracy)
    case BadDistance => OutOfRange(distance)
    case BadValueMs => valueMs.Number? && valueMs.n <= 0.0
    case BadTimeScore => OutOfRange(score)
    case NotIntegers => Fractional(accuracy) || Fractional(distance) || Fractional(score)
  }

  /** The cascade of a round, read check by check through `CheckFails`. */
  lemma CheckRoundCascade(round: JsValue, i: nat)
    requires HasProperties(round)
    ensures CheckRound(round, i)
        == if CheckFails(round, BadFieldTypes) then BadRequest(RoundError(i, BadFieldTypes))
           else if CheckFails(round, BadTimeTypes) then BadRequest(RoundError(i, BadTimeTypes))
           else if CheckFails(round, BadAccuracy) then BadRequest(RoundError(i, BadAccuracy))
           else if CheckFails(round, BadDistance) then BadRequest(RoundError(i, BadDistance))
           else if CheckFails(round, BadValueMs) then BadRequest(RoundError(i, BadValueMs))
           else if CheckFails(round, BadTimeScore) then BadRequest(RoundError(i, BadTimeScore))
           else if CheckFails(round, NotIntegers) then BadRequest(RoundError(i, NotIntegers))
           else Next
  {
  }

  /** A round is turned away with check `c` exactly when `c` objects to it and no earlier check does. */
  lemma CheckRoundErrorIff(round: JsValue, i: nat, c: RoundCheck)
    ensures CheckRound(round, i) == BadRequest(RoundError(i, c))
        <==> && HasProperties(round)
             && CheckFails(round, c)
             && forall d :: CheckRank(d) < CheckRank(c) ==> !CheckFails(round, d)
  {
    if HasProperties(round) {
      CheckRoundCascade(round, i);
      var checks := [BadFieldTypes, BadTimeTypes, BadAccuracy, BadDistance, BadValueMs, BadTimeScore, NotIntegers];
      assert forall k :: 0 <= k < |checks| ==> CheckRank(checks[k]) == k;
      forall d | CheckRank(d) < CheckRank(c) && CheckRound(round, i) == BadRequest(RoundError(i, c))
        ensures !CheckFails(round, d)
      {
        assert checks[CheckRank(d)] == d;
      }
      if CheckFails(round, c) && forall d :: CheckRank(d) < CheckRank(c) ==> !CheckFails(round, d) {
        assert forall k :: 0 <= k < CheckRank(c) ==> !CheckFails(round, checks[k]);
      }
    }
  }

  /** The loop answers with round `j`'s error exactly when the rounds before it are good and round `j` fails. */
  lemma {:induction false} CheckRoundsErrorAt(rounds: seq<JsValue>, i: nat, j: nat, c: RoundCheck)
    requires i <= |rounds|
    ensures CheckRounds(rounds, i) == BadRequest(RoundError(j, c))
        <==> && i <= j < |rounds|
             && (forall k :: i <= k < j ==> RoundOk(rounds[k]))
             && CheckRound(rounds[j], j) == BadRequest(RoundError(j, c))
    decreases |rounds| - i
  {
    if i < |rounds| {
      CheckRoundNextIff(rounds[i], i);
      CheckRoundsErrorAt(rounds, i + 1, j, c);
    }
  }

  /** Both fields are present in the truthiness sense of the first check. */
  predicate FieldsPresent(body: JsValue)
    requires HasProperties(body)
  {
    Truthy(Field(body, "nickname")) && Truthy(Field(body, "rounds"))
  }

  /** The nickname is a string and the rounds an array. */
  predicate TypesOk(body: JsValue)
    requires HasProperties(body)
  {
    Field(body, "nickname").Str? && Field(body, "rounds").Array?
  }

  /** An object body whose nickname is a 1 to 50 unit string and whose rounds are an array. */
  predicate HeaderOk(body: JsValue)
  {
    && HasProperties(body) && FieldsPresent(body) && TypesOk(body)
    && 1 <= Utf16Length(Field(body, "nickname").s) <= MaxNicknameLength
  }

  /** The body-level errors, each given exactly when its check is the first to fail. */
  lemma ValidateErrorIff(body: JsValue)
    ensures Validate(body) == BadRequest(MissingFields) <==> HasProperties(body) && !FieldsPresent(body)
    ensures Validate(body) == BadRequest(InvalidTypes)
        <==> HasProperties(body) && FieldsPresent(body) && !TypesOk(body)
    ensures Validate(body) == BadRequest(NicknameLength)
        <==> HasProperties(body) && FieldsPresent(body) && TypesOk(body)
             && !(1 <= Utf16Length(Field(body, "nickname").s) <= MaxNicknameLength)
    ensures Validate(body) == BadRequest(RoundsCount)
        <==> HeaderOk(body) && |Field(body, "rounds").items| != RequiredRounds
  {
    if HasProperties(body) && Field(body, "rounds").Array? {
      CheckRoundsError(Field(body, "rounds").items, 0);
    }
  }

  /** A per-round error names the first bad round of a body that passed the body-level checks. */
  lemma ValidateRoundErrorIff(body: JsValue, j: nat, c: RoundCheck)
    ensures Validate(body) == BadRequest(RoundError(j, c))
        <==> && HeaderOk(body)
             && |Field(body, "rounds").items| == RequiredRounds
             && j < RequiredRounds
             && (forall k :: 0 <= k < j ==> RoundOk(Field(body, "rounds").items[k]))
             && CheckRound(Field(body, "rounds").items[j], j) == BadRequest(RoundError(j, c))
  {
    if HasProperties(body) && Field(body, "rounds").Array? {
      CheckRoundsErrorAt(Field(body, "rounds").items, 0, j, c);
    }
  }

  // ---------------------------------------------------------------------
  // The middleware itself

  /**
   * `validateGameResult(req, res, next)` on `req.body`: guarded early
   * returns, then a loop that stops at the first failing round.
   */
  method ValidateGameResult(body: JsValue) returns (outcome: Outcome)
    ensures outcome == Validate(body)
  {
    if !HasProperties(body) {
      return Thrown;
    }
    var nickname, rounds := Field(body, "nickname"), Field(body, "rounds");
    if !Truthy(nickname) || !Truthy(rounds) {
      return BadRequest(MissingFields);
    }
    if TypeOf(nickname) != "string" || !rounds.Array? {
      return BadRequest(InvalidTypes);
    }
    if Utf16Length(nickname.s) < 1 || Utf16Length(nickname.s) > MaxNicknameLength {
      return BadRequest(NicknameLength);
    }
    if |rounds.items| != RequiredRounds {
      return BadRequest(RoundsCount);
    }
    for i := 0 to |rounds.items|
      invariant CheckRounds(rounds.items, 0) == CheckRounds(rounds.items, i)
    {
      var round := rounds.items[i];
      if !HasProperties(round) {
        return Thrown;
      }
      var accuracy, distance, time :=
        Field(round, "accuracy_score"), Field(round, "distance_from_center"), Field(round, "time");
      if TypeOf(accuracy) != "number" || TypeOf(distance) != "number" || TypeOf(time) != "object" || time == Null {
        return BadRequest(RoundError(i, BadFieldTypes));
      }
      var valueMs, score := Field(time, "value_ms"), Field(time, "score");
      if TypeOf(valueMs) != "number" || TypeOf(score) != "number" {
        return BadRequest(RoundError(i, BadTimeTypes));
      }
      if accuracy.n < 0.0 || accuracy.n > MaxScore {
        return BadRequest(RoundError(i, BadAccuracy));
      }
      if distance.n < 0.0 || distance.n > MaxScore {
        return BadRequest(RoundError(i, BadDistance));
      }
      if valueMs.n <= 0.0 {
        return BadRequest(RoundError(i, BadValueMs));
      }
      if score.n < 0.0 || score.n > MaxScore {
        return BadRequest(RoundError(i, BadTimeScore));
      }
      if !IsInteger(accuracy.n) || !IsInteger(distance.n) || !IsInteger(score.n) {
        return BadRequest(RoundError(i, NotIntegers));
      }
    }
    return Next;
  }
}
