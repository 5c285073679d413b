/** What the server's validator makes of the payload the client posts. */
module Submission {
  import opened JsMath
  import opened Text
  import opened GameTypes
  import opened JsValues
  import opened Validation
  import opened Wire

  /** A round the client posts passes every per-round check exactly when its three scores lie in `[0, 100]` and its duration is positive. */
  lemma PostedRoundOkIff(w: PostedRound)
    ensures RoundOk(RoundToJson(w))
        <==> 0 <= w.accuracyScore <= 100 && 0 <= w.distanceFromCenter <= 100
             && w.time.valueMs > 0 && 0 <= w.time.score <= 100
  {
    IntegerIsInteger(w.accuracyScore);
    IntegerIsInteger(w.distanceFromCenter);
    IntegerIsInteger(w.time.score);
  }

  lemma IntegerIsInteger(n: int)
    ensures IsInteger(n as real)
  {
  }

  /** Whether a posted round's scores lie in `[0, 100]` and its duration is positive. */
  predicate PostedRoundInRange(w: PostedRound)
  {
    0 <= w.accuracyScore <= 100 && 0 <= w.distanceFromCenter <= 100 && w.time.valueMs > 0 && 0 <= w.time.score <= 100
  }

  /**
   * The server takes a posted request exactly when its nickname is 1 to 50
   * UTF-16 units long, there are three rounds, and every round is in range.
   */
  lemma RequestAcceptedIff(p: GameResultRequest)
    ensures Validate(RequestToJson(p)) == Next
        <==> && 1 <= Utf16Length(p.nickname) <= MaxNicknameLength
             && |p.rounds| == RequiredRounds
             && forall i :: 0 <= i < |p.rounds| ==> PostedRoundInRange(p.rounds[i])
  {
    var body := RequestToJson(p);
    assert Field(body, "nickname") == Str(p.nickname);
    assert Field(body, "rounds") == Array(RoundsToJson(p.rounds));
    ValidateNextIff(body);
    forall i | 0 <= i < |p.rounds|
      ensures RoundOk(RoundsToJson(p.rounds)[i]) <==> PostedRoundInRange(p.rounds[i])
    {
      PostedRoundOkIff(p.rounds[i]);
    }
  }

  /**
   * The server takes what the client's submit effect posts exactly when the
   * posted nickname fits, there are three rounds, and every round has
   * in-range scores and a positive duration.
   */
  lemma SubmitAcceptedIff(nickname: string, results: seq<RoundResult>)
    ensures Validate(RequestToJson(SubmitPayload(nickname, results))) == Next
        <==> && 1 <= Utf16Length(SubmitPayload(nickname, results).nickname) <= MaxNicknameLength
             && |results| == RequiredRounds
             && forall i :: 0 <= i < |results| ==> ScoresInRange(results[i], 100) && results[i].time.valueMs > 0
  {
    RequestAcceptedIff(SubmitPayload(nickname, results));
    PayloadRoundsInRange(nickname, results);
  }

  /** The posted rounds are in range exactly when the results they carry are. */
  lemma PayloadRoundsInRange(nickname: string, results: seq<RoundResult>)
    ensures var p := SubmitPayload(nickname, results);
      (forall i :: 0 <= i < |p.rounds| ==> PostedRoundInRange(p.rounds[i]))
      <==> (forall i :: 0 <= i < |results| ==> ScoresInRange(results[i], 100) && results[i].time.valueMs > 0)
  {
    var p := SubmitPayload(nickname, results);
    forall i | 0 <= i < |results|
      ensures PostedRoundInRange(p.rounds[i]) <==> ScoresInRange(results[i], 100) && results[i].time.valueMs > 0
    {
      WireRoundTrip(results[i], p.rounds[i]);
    }
  }

  /** The default nickname is short enough, so a player who types none is still accepted. */
  lemma DefaultNicknameFits()
    ensures 1 <= Utf16Length(DefaultNickname) <= MaxNicknameLength
  {
  }

  /** A request with a fitting nickname and no rounds is turned away for its round count. */
  lemma EmptyRequestRejected(p: GameResultRequest)
    requires p.nickname != "" && Utf16Length(p.nickname) <= MaxNicknameLength && p.rounds == []
    ensures Validate(RequestToJson(p)) == BadRequest(RoundsCount)
  {
    var body := RequestToJson(p);
    assert Field(body, "nickname") == Str(p.nickname);
    assert Field(body, "rounds") == Array([]);
  }
}
