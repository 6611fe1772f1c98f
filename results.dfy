/**
 * Result finalisation of `show_results`: the rank tier chosen from the score
 * against `total = 10 * len(QUIZ_DATA)`, and the correct/wrong counts shown.
 *
 * The source compares against the floats `total * 0.7` and `total * 0.5`;
 * here they are the exact comparisons `10 * score >= 7 * total` and
 * `2 * score >= total`.
 */
module Results {

  datatype Tier = Champion | Professional | Average | Novice

  /** Tiers ordered from lowest (0) to highest (3). */
  function Level(t: Tier): nat
  {
    match t
    case Novice => 0
    case Average => 1
    case Professional => 2
    case Champion => 3
  }

  /**
   * The if/elif chain of `show_results`: champion exactly for a full score;
   * novice only below half the total, so at least half is never novice.
   */
  function Rank(score: int, total: int): (t: Tier)
    ensures t == Champion <==> score == total
    ensures t == Novice ==> 2 * score < total
    ensures t == Professional ==> 10 * score >= 7 * total
  {
    if score == total then Champion
    else if 10 * score >= 7 * total then Professional
    else if 2 * score >= total then Average
    else Novice
  }

  /** A full score is champion; a zero score on a non-empty bank is novice. */
  lemma RankExtremes(total: nat)
    ensures Rank(total, total) == Champion
    ensures total > 0 ==> Rank(0, total) == Novice
  {
  }

  /** Between 0 and the total, a higher score never earns a lower tier. */
  lemma RankMonotone(s1: int, s2: int, total: int)
    requires 0 <= s1 <= s2 <= total
    ensures Level(Rank(s1, total)) <= Level(Rank(s2, total))
  {
  }

  /** The result screen's figures. */
  datatype Summary = Summary(score: int, total: int, tier: Tier, correct: int, wrong: int)

  /** `show_results` for a score over a bank of `count` questions. */
  function Finalise(score: int, count: nat): (r: Summary)
    ensures r.total == 10 * count && r.score == score
    ensures r.correct + r.wrong == count
  {
    var total := 10 * count;
    Summary(score, total, Rank(score, total), score / 10, count - score / 10)
  }

  /**
   * For a score of ten points per correct answer, the shown counts are the
   * numbers of correct and wrong answers, both within the bank.
   */
  lemma FinaliseCounts(correct: nat, count: nat)
    requires correct <= count
    ensures Finalise(10 * correct, count).correct == correct
    ensures Finalise(10 * correct, count).wrong == count - correct >= 0
    ensures correct == count <==> Finalise(10 * correct, count).tier == Champion
  {
  }
}
