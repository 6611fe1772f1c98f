/**
 * The per-user quiz session: the `current_question` and `score` entries that
 * `start_quiz` and `handle_answer` keep in the chat library's `user_data`.
 */
module Sessions {
  import opened Wrappers
  import opened Questions
  import Tokens

  /** Points awarded for one correct answer. */
  const PointsPerQuestion: nat := 10

  /** How many of `answers` match the correct index of the question at the same position. */
  function CorrectCount(bank: seq<Question>, answers: seq<int>): nat
    requires |answers| <= |bank|
  {
    if answers == [] then 0
    else
      var n := |answers| - 1;
      CorrectCount(bank, answers[..n]) + (if answers[n] == bank[n].correct then 1 else 0)
  }

  /** The positions answered correctly, as a set: it does not depend on the order of grading. */
  function CorrectPositions(bank: seq<Question>, answers: seq<int>): set<nat>
    requires |answers| <= |bank|
  {
    set j: nat | j < |answers| && answers[j] == bank[j].correct
  }

  /** No more correct answers than answers. */
  lemma {:induction false} CorrectCountBounded(bank: seq<Question>, answers: seq<int>)
    requires |answers| <= |bank|
    ensures CorrectCount(bank, answers) <= |answers|
  {
    if answers != [] {
      CorrectCountBounded(bank, answers[..|answers| - 1]);
    }
  }

  /** The running count equals the number of correctly answered positions. */
  lemma {:induction false} CorrectCountIsPositions(bank: seq<Question>, answers: seq<int>)
    requires |answers| <= |bank|
    ensures CorrectCount(bank, answers) == |CorrectPositions(bank, answers)|
  {
    if answers == [] {
      assert CorrectPositions(bank, answers) == {};
    } else {
      var n := |answers| - 1;
      var before := answers[..n];
      CorrectCountIsPositions(bank, before);
      var p, q := CorrectPositions(bank, before), CorrectPositions(bank, answers);
      assert forall j: nat :: j < n ==> before[j] == answers[j];
      if answers[n] == bank[n].correct {
        assert q == p + {n};
        assert n !in p;
      } else {
        assert q == p;
      }
    }
  }

  /** What one answer press produced. */
  datatype AnswerOutcome =
    | Correct
    | Wrong(correctAnswer: string)
    | Rejected(fault: Fault)

  /** Grading option `i` against `q`: right, or wrong with the correct option's text revealed. */
  function Grade(q: Question, i: int): (o: AnswerOutcome)
    requires WellFormed(q)
    ensures o.Correct? <==> i == q.correct
    ensures o.Wrong? ==> o.correctAnswer == q.options[q.correct]
    ensures !o.Rejected?
  {
    if i == q.correct then Correct else Wrong(CorrectText(q))
  }

  /** Why `handle_answer` raised before changing anything. */
  datatype Fault =
    | MalformedToken      // split('_')[1] or int(...) failed
    | NoSession           // user_data has no 'current_question' (no quiz was started)
    | NoCurrentQuestion   // QUIZ_DATA[current_question] is out of range (quiz already complete)

  /** What `send_question` does next: show a question, or show the results. */
  datatype Step =
    | Ask(number: nat, of: nat, question: Question, keyboard: seq<Button>)
    | Finished

  class Session {
    /** The question bank, `QUIZ_DATA`, read-only. */
    const bank: seq<Question>
    /** Whether `start_quiz` has put the session keys in `user_data`. */
    var started: bool
    var userId: UserId
    var currentQuestion: int
    var score: int
    /** The option indexes answered since the last start, in order. */
    ghost var answers: seq<int>

    /**
     * The session invariant: the index stays within the bank, one answer
     * was recorded per question passed, and the score is ten points per
     * correct answer.
     */
    ghost predicate Valid()
      reads this
    {
      && BankWellFormed(bank)
      && (started ==>
            && 0 <= currentQuestion <= |bank|
            && |answers| == currentQuestion
            && score == PointsPerQuestion * CorrectCount(bank, answers))
      && (!started ==> answers == [])
    }

    /** A `user_data` without quiz entries. */
    constructor (bank: seq<Question>)
      requires BankWellFormed(bank)
      ensures Valid() && this.bank == bank && !started
    {
      this.bank := bank;
      started := false;
      userId := 0;
      currentQuestion := 0;
      score := 0;
      answers := [];
    }

    /** `start_quiz`: reset index and score, overwriting any quiz in progress. */
    method Start(user: UserId)
      requires Valid()
      modifies this
      ensures Valid()
      ensures started && userId == user && currentQuestion == 0 && score == 0 && answers == []
    {
      started := true;
      userId := user;
      currentQuestion := 0;
      score := 0;
      answers := [];
    }

    /** `send_question`'s test: the quiz is complete once the index reaches the bank's length. */
    predicate IsComplete()
      reads this
      ensures Valid() && started ==> (IsComplete() <==> |answers| == |bank|)
    {
      currentQuestion >= |bank|
    }

    /** `send_question`: the question to show, or `Finished` once complete. */
    function NextStep(): (s: Step)
      reads this
      requires Valid() && started
      ensures s.Finished? <==> currentQuestion == |bank|
      ensures s.Ask? ==> s.question == bank[currentQuestion] && s.number == currentQuestion + 1 <= s.of == |bank|
      ensures s.Ask? ==> |s.keyboard| == |s.question.options| + 1
      ensures s.Ask? ==> forall i :: 0 <= i < |s.question.options| ==> Tokens.ParseAnswer(s.keyboard[i].token) == Some(i)
    {
      if IsComplete() then Finished
      else
        var q := bank[currentQuestion];
        assert WellFormed(q);
        Ask(currentQuestion + 1, |bank|, q, Keyboard(q))
    }

    /**
     * `handle_answer`: parse the pressed token, grade it against the current
     * question, add 10 points when it is right, and advance the index by one
     * either way. Where the source raises before its first update (a
     * malformed token, no quiz started, the quiz already complete), nothing
     * changes; transport calls are taken to succeed.
     */
    method Answer(token: string) returns (outcome: AnswerOutcome)
      requires Valid()
      modifies this
      ensures Valid()
      ensures started == old(started) && userId == old(userId)
      ensures outcome == Rejected(MalformedToken) <==> Tokens.ParseAnswer(token).None?
      ensures outcome == Rejected(NoSession) <==> Tokens.ParseAnswer(token).Some? && !old(started)
      ensures outcome == Rejected(NoCurrentQuestion) <==>
        Tokens.ParseAnswer(token).Some? && old(started) && old(currentQuestion) >= |bank|
      ensures outcome.Rejected? <==>
        Tokens.ParseAnswer(token).None? || !old(started) || old(currentQuestion) >= |bank|
      ensures outcome.Rejected? ==>
        currentQuestion == old(currentQuestion) && score == old(score) && answers == old(answers)
      ensures !outcome.Rejected? ==>
        var i, q := Tokens.ParseAnswer(token).value, bank[old(currentQuestion)];
        && outcome == Grade(q, i)
        && score == old(score) + (if outcome.Correct? then PointsPerQuestion else 0)
        && currentQuestion == old(currentQuestion) + 1
        && answers == old(answers) + [i]
    {
      var parsed := Tokens.ParseAnswer(token);
      if parsed.None? {
        return Rejected(MalformedToken);
      }
      if !started {
        return Rejected(NoSession);
      }
      if currentQuestion >= |bank| {
        return Rejected(NoCurrentQuestion);
      }
      var i := parsed.value;
      var q := bank[currentQuestion];
      assert WellFormed(q);
      outcome := Grade(q, i);
      if outcome.Correct? {
        score := score + PointsPerQuestion;
      }
      answers := answers + [i];
      assert answers[..|answers| - 1] == old(answers);
      currentQuestion := currentQuestion + 1;
    }
  }

  /**
   * Bounds of a started session: `0 <= score <= 10 * current_question <= 10 * len(QUIZ_DATA)`,
   * and the score is ten times the number of correctly answered positions.
   */
  lemma ScoreBounds(s: Session)
    requires s.Valid() && s.started
    ensures 0 <= s.score <= PointsPerQuestion * s.currentQuestion <= PointsPerQuestion * |s.bank|
    ensures s.score == PointsPerQuestion * |CorrectPositions(s.bank, s.answers)|
    ensures s.score % PointsPerQuestion == 0
  {
    CorrectCountBounded(s.bank, s.answers);
    CorrectCountIsPositions(s.bank, s.answers);
  }
}
