/**
 * The results panel: the Russian plural of "points", the score label, and
 * the game's final score.
 */
module GameResults {
  import opened Config
  import opened JsMath
  import opened Text
  import opened Wrappers
  import opened GameTypes
  import opened Scoring

  const One: string := "очко"
  const Few: string := "очка"
  const Many: string := "очков"

  /** `getPointsWord(n)`: the plural form of "points" that goes with `n`. */
  function PointsWord(n: int): (w: string)
    ensures w == One || w == Few || w == Many
  {
    var absN := AbsInt(n);
    if absN % 10 == 1 && absN % 100 != 11 then One
    else if absN % 10 in {2, 3, 4} && absN % 100 !in {12, 13, 14} then Few
    else Many
  }

  /**
   * The Russian rule for the plural of a count, stated on its last two
   * decimal digits: the teens take the genitive plural; otherwise a last
   * digit 1 takes the singular, 2 to 4 the paucal, anything else the plural.
   */
  function PluralRule(n: int): (w: string)
  {
    var last, tens := AbsInt(n) % 10, AbsInt(n) / 10 % 10;
    if tens == 1 then Many
    else if last == 1 then One
    else if 2 <= last <= 4 then Few
    else Many
  }

  /** The last two digits of `a` are ten times its tens digit plus its last digit. */
  lemma LastTwoDigits(a: nat)
    ensures a % 100 == 10 * (a / 10 % 10) + a % 10
  {
    var q := a / 100;
    var r := a % 100;
    assert a == 100 * q + r;
    assert a / 10 == 10 * q + r / 10;
    assert a / 10 % 10 == r / 10;
  }

  /** `getPointsWord` agrees with the digit rule on every integer. */
  lemma PointsWordMatchesRule(n: int)
    ensures PointsWord(n) == PluralRule(n)
  {
    LastTwoDigits(AbsInt(n));
  }

  /** The three cases of `getPointsWord`, each as an equivalence. */
  lemma PointsWordCases(n: int)
    ensures PointsWord(n) == One <==> AbsInt(n) % 10 == 1 && AbsInt(n) % 100 != 11
    ensures PointsWord(n) == Few <==> 2 <= AbsInt(n) % 10 <= 4 && !(12 <= AbsInt(n) % 100 <= 14)
    ensures PointsWord(n) == Many <==> !(AbsInt(n) % 10 == 1 && AbsInt(n) % 100 != 11)
                                        && !(2 <= AbsInt(n) % 10 <= 4 && !(12 <= AbsInt(n) % 100 <= 14))
  {
    assert One != Few && One != Many && Few != Many;
  }

  /** The word depends only on the magnitude. */
  lemma PointsWordSymmetric(n: int)
    ensures PointsWord(n) == PointsWord(-n)
  {
  }

  /**
   * `formatResults(results, outOf)`: the number, then `/outOf` (100 when
   * absent) if IS_RESULT_OUT_OF_SHOWN is set, then a space and the word
   * that goes with `results`.
   */
  function FormatResults(cfg: GameConfig, results: int, outOf: Option<int>): (s: string)
    ensures |s| > |IntToString(results)| && s[..|IntToString(results)|] == IntToString(results)
    ensures s[|IntToString(results)|] == (if cfg.isResultOutOfShown then '/' else ' ')
    ensures |s| > |PointsWord(results)| && s[|s| - |PointsWord(results)|..] == PointsWord(results)
    ensures s[|s| - |PointsWord(results)| - 1] == ' '
    ensures '/' in s <==> cfg.isResultOutOfShown
    ensures cfg.isResultOutOfShown ==> s == IntToString(results) + "/" + IntToString(outOf.GetOr(100)) + " " + PointsWord(results)
    ensures !cfg.isResultOutOfShown ==> s == IntToString(results) + " " + PointsWord(results)
  {
    var word := PointsWord(results);
    var r := IntToString(results);
    if cfg.isResultOutOfShown then
      var s := r + "/" + IntToString(outOf.GetOr(100)) + " " + word;
      assert s[|r|] == '/';
      s
    else
      var s := r + " " + word;
      assert '/' !in r && '/' !in word;
      s
  }

  /** The label determines the number it shows. */
  lemma FormatResultsInjective(cfg: GameConfig, a: int, b: int, outOfA: Option<int>, outOfB: Option<int>)
    requires FormatResults(cfg, a, outOfA) == FormatResults(cfg, b, outOfB)
    ensures a == b
  {
    var s := FormatResults(cfg, a, outOfA);
    var ra, rb := IntToString(a), IntToString(b);
    assert ra == s[..|ra|] == rb;
    IntToStringInjective(a, b);
  }

  /** `roundResults.reduce((sum, result) => sum + getTotalScore(result), acc)`. */
  function FoldTotals(acc: int, rs: seq<RoundResult>): int
    decreases rs
  {
    if rs == [] then acc else FoldTotals(acc + TotalScore(rs[0]), rs[1..])
  }

  /** `finalScore`: the reduce started from 0. */
  function FinalScore(rs: seq<RoundResult>): int
  {
    FoldTotals(0, rs)
  }

  /** The round totals added up from the last round back: the reference the fold is checked against. */
  function SumOfTotals(rs: seq<RoundResult>): int
  {
    if rs == [] then 0 else SumOfTotals(rs[..|rs| - 1]) + TotalScore(rs[|rs| - 1])
  }

  /** Appending a round to the reference sum adds that round's total. */
  lemma {:induction false} SumOfTotalsCons(r: RoundResult, rs: seq<RoundResult>)
    ensures SumOfTotals([r] + rs) == TotalScore(r) + SumOfTotals(rs)
  {
    if rs != [] {
      SumOfTotalsCons(r, rs[..|rs| - 1]);
      assert ([r] + rs)[..|rs|] == [r] + rs[..|rs| - 1];
    }
  }

  /** The fold adds the sum of the round totals to its start value. */
  lemma {:induction false} FoldTotalsIsSum(acc: int, rs: seq<RoundResult>)
    ensures FoldTotals(acc, rs) == acc + SumOfTotals(rs)
    decreases rs
  {
    if rs != [] {
      FoldTotalsIsSum(acc + TotalScore(rs[0]), rs[1..]);
      SumOfTotalsCons(rs[0], rs[1..]);
      assert [rs[0]] + rs[1..] == rs;
    }
  }

  /** The final score is 0 for no rounds, and appending a round adds exactly its total. */
  lemma FinalScoreAppend(rs: seq<RoundResult>, r: RoundResult)
    ensures FinalScore([]) == 0
    ensures FinalScore(rs + [r]) == FinalScore(rs) + TotalScore(r)
  {
    FoldTotalsIsSum(0, rs);
    FoldTotalsIsSum(0, rs + [r]);
    assert (rs + [r])[..|rs|] == rs;
  }

  /** With every score in range, the final score lies between 0 and `3 * MAX` per round. */
  lemma {:induction false} SumOfTotalsBounds(cfg: GameConfig, rs: seq<RoundResult>)
    requires forall i :: 0 <= i < |rs| ==> ScoresInRange(rs[i], cfg.maxScorePerCategory)
    ensures 0 <= SumOfTotals(rs) <= |rs| * (3 * cfg.maxScorePerCategory)
  {
    if rs != [] {
      var init, last := rs[..|rs| - 1], rs[|rs| - 1];
      assert forall i :: 0 <= i < |init| ==> init[i] == rs[i];
      SumOfTotalsBounds(cfg, init);
      TotalScoreInRange(cfg, last);
      AddBound(SumOfTotals(init), TotalScore(last), |rs|, 3 * cfg.maxScorePerCategory);
    }
  }

  /** One more term in `[0, m]` raises a bound of `(k - 1) * m` to `k * m`. */
  lemma AddBound(prev: int, d: int, k: nat, m: int)
    requires k >= 1 && 0 <= prev <= (k - 1) * m && 0 <= d <= m
    ensures 0 <= prev + d <= k * m
  {
    assert k * m == (k - 1) * m + m;
  }

  /**
   * A finished game of in-range rounds scores at most ROUNDS_COUNT * 300,
   * the denominator the panel shows, when the scores are out of 100.
   */
  lemma FinalScoreBounds(cfg: GameConfig, rs: seq<RoundResult>)
    requires forall i :: 0 <= i < |rs| ==> ScoresInRange(rs[i], cfg.maxScorePerCategory)
    ensures 0 <= FinalScore(rs) <= |rs| * (3 * cfg.maxScorePerCategory)
    ensures MatchesServer(cfg) && |rs| == cfg.roundsCount ==> FinalScore(rs) <= cfg.roundsCount * 300
  {
    FoldTotalsIsSum(0, rs);
    SumOfTotalsBounds(cfg, rs);
  }

  /**
   * The summary line of the panel: shown only once the game is finished and
   * there are results, labelled out of ROUNDS_COUNT * 300.
   */
  function FinalResultLine(cfg: GameConfig, rs: seq<RoundResult>, gameState: GameState): (line: Option<string>)
    ensures line.Some? <==> |rs| > 0 && gameState == Finished
  {
    if |rs| > 0 && gameState == Finished then Some(FormatResults(cfg, FinalScore(rs), Some(cfg.roundsCount * 300)))
    else None
  }
}
