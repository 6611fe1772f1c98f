/**
 * The bot's quiz handlers with the chat transport taken away: each one
 * updates the user's session and, when a quiz completes, the shared ledger.
 * The date of an attempt is passed in (the source formats the current time).
 */
module Bot {
  import opened Wrappers
  import opened Questions
  import opened Sessions
  import opened Results
  import opened Ledgers
  import Tokens

  /**
   * `show_results` for the session's user, score and bank size: append one
   * record with the date to the user's history, and compute the result screen.
   */
  method ShowResults(ledger: Ledger, user: UserId, score: int, count: nat, date: string) returns (summary: Summary)
    requires ledger.Valid()
    modifies ledger
    ensures ledger.Valid()
    ensures ledger.scores == Appended(old(ledger.scores), user, Record(score, date, count))
    ensures ledger.users == if user in old(ledger.scores) then old(ledger.users) else old(ledger.users) + [user]
    ensures summary == Finalise(score, count)
  {
    ledger.Append(user, Record(score, date, count));
    summary := Finalise(score, count);
  }

  /**
   * `start_quiz` followed by `send_question`: the session restarts at the
   * first question with no points; only an empty bank completes (and is
   * recorded) at once.
   */
  method StartQuiz(s: Session, ledger: Ledger, user: UserId, date: string) returns (finished: Option<Summary>)
    requires s.Valid() && ledger.Valid()
    modifies s, ledger
    ensures s.Valid() && ledger.Valid()
    ensures s.started && s.userId == user && s.currentQuestion == 0 && s.score == 0 && s.answers == []
    ensures |s.bank| > 0 ==> finished == None && unchanged(ledger)
    ensures |s.bank| == 0 ==>
      && finished == Some(Finalise(0, 0))
      && ledger.scores == Appended(old(ledger.scores), user, Record(0, date, 0))
      && ledger.users == (if user in old(ledger.scores) then old(ledger.users) else old(ledger.users) + [user])
  {
    s.Start(user);
    finished := None;
    if s.IsComplete() {
      var summary := ShowResults(ledger, s.userId, s.score, |s.bank|, date);
      finished := Some(summary);
    }
  }

  /**
   * `handle_answer` followed by `send_question`: grade and advance the
   * session; when that answer was the last one, record the attempt and
   * return the result screen, whose counts are the numbers of correct and
   * wrong answers. A rejected press changes nothing.
   */
  method HandleAnswer(s: Session, ledger: Ledger, token: string, date: string)
    returns (outcome: AnswerOutcome, finished: Option<Summary>)
    requires s.Valid() && ledger.Valid()
    modifies s, ledger
    ensures s.Valid() && ledger.Valid()
    ensures s.started == old(s.started) && s.userId == old(s.userId)
    ensures outcome.Rejected? ==>
      && finished == None && unchanged(ledger)
      && s.score == old(s.score) && s.currentQuestion == old(s.currentQuestion)
    ensures outcome.Rejected? <==>
      Tokens.ParseAnswer(token).None? || !old(s.started) || old(s.currentQuestion) >= |s.bank|
    ensures !outcome.Rejected? ==>
      && outcome == Grade(s.bank[old(s.currentQuestion)], Tokens.ParseAnswer(token).value)
      && s.currentQuestion == old(s.currentQuestion) + 1
      && s.score == old(s.score) + (if outcome.Correct? then PointsPerQuestion else 0)
    ensures finished.Some? <==> !outcome.Rejected? && s.currentQuestion == |s.bank|
    ensures finished.None? ==> unchanged(ledger)
    ensures finished.Some? ==>
      && ledger.scores == Appended(old(ledger.scores), s.userId, Record(s.score, date, |s.bank|))
      && ledger.users ==
           (if s.userId in old(ledger.scores) then old(ledger.users) else old(ledger.users) + [s.userId])
      && finished.value == Finalise(s.score, |s.bank|)
      && finished.value.correct == |CorrectPositions(s.bank, s.answers)|
      && finished.value.wrong == |s.bank| - |CorrectPositions(s.bank, s.answers)|
  {
    outcome := s.Answer(token);
    finished := None;
    if !outcome.Rejected? && s.IsComplete() {
      var summary := ShowResults(ledger, s.userId, s.score, |s.bank|, date);
      finished := Some(summary);
      ScoreBounds(s);
      CorrectCountIsPositions(s.bank, s.answers);
      FinaliseCounts(CorrectCount(s.bank, s.answers), |s.bank|);
    }
  }

  /**
   * `cancel_quiz`: only a message is shown. The session keeps its entries
   * and nothing is appended to the ledger, so a cancelled attempt is never
   * recorded.
   */
  method CancelQuiz(s: Session, ledger: Ledger)
    ensures unchanged(s) && unchanged(ledger)
  {
  }

  /** The bank of the scenarios below: two questions whose correct options are 1 and 0. */
  function TwoQuestionBank(): (bank: seq<Question>)
    ensures BankWellFormed(bank) && |bank| == 2
    ensures bank[0].correct == 1 && bank[1].correct == 0
  {
    [Question("Q1", ["a", "b"], 1), Question("Q2", ["c", "d"], 0)]
  }

  /** Answering [1, 0] scores 20 of 20 (champion); a stale press afterwards is rejected. */
  method ChampionScenario()
  {
    var s := new Session(TwoQuestionBank());
    var ledger := new Ledger();
    var started := StartQuiz(s, ledger, 7, "2024-01-01 10:00");
    var o1, f1 := HandleAnswer(s, ledger, Tokens.EncodeAnswer(1), "2024-01-01 10:00");
    assert o1 == Correct && f1 == None;
    assert s.currentQuestion == 1 && s.score == 10;
    var o2, f2 := HandleAnswer(s, ledger, Tokens.EncodeAnswer(0), "2024-01-01 10:00");
    assert o2 == Correct && s.score == 20 && s.currentQuestion == 2;
    assert f2 == Some(Finalise(20, 2));
    assert f2.value.tier == Champion;
    assert ledger.scores[7] == [Record(20, "2024-01-01 10:00", 2)];
    var o3, f3 := HandleAnswer(s, ledger, Tokens.EncodeAnswer(0), "2024-01-01 10:01");
    assert o3.Rejected? && f3 == None && s.score == 20;
  }

  /** Answering [0, 0] scores 10 of 20: exactly half, which is average. */
  method AverageScenario()
  {
    var s := new Session(TwoQuestionBank());
    var ledger := new Ledger();
    var started := StartQuiz(s, ledger, 7, "2024-01-02 09:00");
    var o1, f1 := HandleAnswer(s, ledger, Tokens.EncodeAnswer(0), "2024-01-02 09:00");
    assert o1 == Wrong("b") && f1 == None;
    assert s.currentQuestion == 1 && s.score == 0;
    var o2, f2 := HandleAnswer(s, ledger, Tokens.EncodeAnswer(0), "2024-01-02 09:00");
    assert o2 == Correct && s.score == 10;
    assert f2 == Some(Finalise(10, 2));
    assert f2.value.tier == Average && f2.value.correct == 1 && f2.value.wrong == 1;
  }

  /** The history of the ledger scenario: two attempts scoring 20 and then 30. */
  function TwoGames(): (rs: seq<Record>)
    ensures |rs| == 2 && rs[0].score == 20 && rs[1].score == 30
  {
    [Record(20, "2024-01-01 10:00", 2), Record(30, "2024-01-02 09:00", 3)]
  }

  /** `/score` on that history: two games, best 30, average 25, the second date. */
  lemma TwoGamesStats()
    ensures StatsOf(TwoGames()) == Stats(2, 30, 25, "2024-01-02 09:00")
  {
    var rs := TwoGames();
    assert rs[..1] == [rs[0]] && rs[..1][..0] == [];
    assert SumScores(rs[..1]) == 20;
    assert SumScores(rs) == 50;
    assert MaxScore(rs[..1]) == 20;
    assert MaxScore(rs) == 30;
  }

  /** The leaderboard of a ledger holding only that history: one row, the user with 30. */
  lemma TwoGamesBoard(scores: map<UserId, seq<Record>>)
    requires scores == map[7 := TwoGames()]
    ensures TopN(BestTable([7], scores), LeaderboardSize) == [Entry(7, 30)]
  {
    TwoGamesStats();
    assert BestTable([7], scores) == [Entry(7, 30)];
    assert SortByBest([Entry(7, 30)]) == [Entry(7, 30)];
  }

  /** Two recorded attempts scoring 20 and 30: best 30, average 25, two games, leader with 30. */
  method LedgerScenario()
  {
    var ledger := new Ledger();
    var history := TwoGames();
    ledger.Append(7, history[0]);
    ledger.Append(7, history[1]);
    assert ledger.scores[7] == [history[0], history[1]] == history;
    assert ledger.scores.Keys == {7};
    assert ledger.scores == map[7 := history];
    assert ledger.users == [7];
    TwoGamesStats();
    assert ledger.ShowScore(7) == Some(Stats(2, 30, 25, "2024-01-02 09:00"));
    assert ledger.ShowScore(8) == None;
    TwoGamesBoard(ledger.scores);
    var top := ledger.Leaderboard();
    assert top == [Entry(7, 30)];
  }
}
