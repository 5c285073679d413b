/**
 * The request the client posts when a game ends (`GameResultRequest`), the
 * mapping from the client's round results to it, and its JSON form as the
 * server receives it.
 */
module Wire {
  import opened Text
  import opened GameTypes
  import opened JsValues

  /** `{ value_ms, score }` of a posted round. */
  datatype PostedTime = PostedTime(valueMs: int, score: int)

  /** `{ accuracy_score, distance_from_center, time }`: a posted round. */
  datatype PostedRound = PostedRound(accuracyScore: int, distanceFromCenter: int, time: PostedTime)

  /** `{ nickname, rounds }`. */
  datatype GameResultRequest = GameResultRequest(nickname: string, rounds: seq<PostedRound>)

  /** The nickname posted when the player typed none. */
  const DefaultNickname: string := "No nickname"

  /** The field-for-field mapping of one round result to its posted form. */
  function ToWire(r: RoundResult): PostedRound
  {
    PostedRound(r.accuracyScore, r.distanceFromCenter, PostedTime(r.time.valueMs, r.time.score))
  }

  /** Reading a posted round back as a round result. */
  function FromWire(w: PostedRound): RoundResult
  {
    RoundResult(w.accuracyScore, w.distanceFromCenter, TimeResult(w.time.valueMs, w.time.score))
  }

  /** The mapping loses nothing, in either direction. */
  lemma WireRoundTrip(r: RoundResult, w: PostedRound)
    ensures FromWire(ToWire(r)) == r
    ensures ToWire(FromWire(w)) == w
  {
  }

  /** `roundResults.map(...)`. */
  function MapToWire(results: seq<RoundResult>): (rounds: seq<PostedRound>)
    ensures |rounds| == |results|
    ensures forall i :: 0 <= i < |results| ==> FromWire(rounds[i]) == results[i]
  {
    if results == [] then [] else [ToWire(results[0])] + MapToWire(results[1..])
  }

  /**
   * The payload the submit effect posts: `nickname || 'No nickname'` and the
   * results mapped in order.
   */
  function SubmitPayload(nickname: string, results: seq<RoundResult>): (p: GameResultRequest)
    ensures p.nickname != ""
    ensures nickname != "" ==> p.nickname == nickname
    ensures nickname == "" ==> p.nickname == DefaultNickname
    ensures |p.rounds| == |results|
    ensures forall i :: 0 <= i < |results| ==> FromWire(p.rounds[i]) == results[i]
  {
    GameResultRequest(if nickname != "" then nickname else DefaultNickname, MapToWire(results))
  }

  /** A posted round as the JSON object the server parses. */
  function RoundToJson(w: PostedRound): JsValue
  {
    Object(map[
      "accuracy_score" := Number(w.accuracyScore as real),
      "distance_from_center" := Number(w.distanceFromCenter as real),
      "time" := Object(map["value_ms" := Number(w.time.valueMs as real), "score" := Number(w.time.score as real)])])
  }

  function RoundsToJson(rounds: seq<PostedRound>): (items: seq<JsValue>)
    ensures |items| == |rounds|
    ensures forall i :: 0 <= i < |rounds| ==> items[i] == RoundToJson(rounds[i])
  {
    if rounds == [] then [] else [RoundToJson(rounds[0])] + RoundsToJson(rounds[1..])
  }

  /** The request body as the server's JSON parser hands it to the validator. */
  function RequestToJson(p: GameResultRequest): JsValue
  {
    Object(map["nickname" := Str(p.nickname), "rounds" := Array(RoundsToJson(p.rounds))])
  }
}
