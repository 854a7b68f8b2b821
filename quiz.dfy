/** The ten-question quiz of script.js: a current question in
    1..TotalQuestions, a partial map from question number to the chosen
    letter, the state of the Previous and Next buttons (and whether Next
    has become "Finish Quiz"), a score counted against a fixed answer key,
    and one of five result messages chosen by the score. */
module Quiz {
  import opened Analytics

  const TotalQuestions: int := 10

  /** `correctAnswers` */
  const CorrectAnswers: map<int, string> :=
    map[1 := "C", 2 := "C", 3 := "A", 4 := "D", 5 := "D",
        6 := "B", 7 := "A", 8 := "D", 9 := "C", 10 := "D"]

  /** The key has an answer for every question. */
  lemma KeyCoversQuestions()
    ensures forall i :: 1 <= i <= TotalQuestions ==> i in CorrectAnswers
  {
    forall i | 1 <= i <= TotalQuestions
      ensures i in CorrectAnswers
    {
      assert i == 1 || i == 2 || i == 3 || i == 4 || i == 5 || i == 6 || i == 7 || i == 8 || i == 9 || i == 10;
    }
  }

  // ---------------------------------------------------------------------
  // Scoring.

  /** `quizAnswers[i] === correctAnswers[i]`: an unanswered question never
      matches, since `undefined` is not a letter. */
  predicate Matches(answers: map<int, string>, i: int)
    ensures Matches(answers, i) ==> i in answers && 1 <= i <= TotalQuestions
  {
    i in answers && i in CorrectAnswers && answers[i] == CorrectAnswers[i]
  }

  /** The number of questions among 1..n answered correctly; it never
      exceeds n. */
  function MatchesUpTo(answers: map<int, string>, n: nat): (c: nat)
    ensures c <= n
  {
    if n == 0 then 0
    else MatchesUpTo(answers, n - 1) + (if Matches(answers, n) then 1 else 0)
  }

  function Score(answers: map<int, string>): (score: nat)
    ensures score <= TotalQuestions
  {
    MatchesUpTo(answers, TotalQuestions)
  }

  /** The questions answered correctly, as a set. */
  function CorrectSet(answers: map<int, string>, n: nat): set<int>
  {
    set i | 1 <= i <= n && Matches(answers, i)
  }

  /** The count is the size of the set of correctly answered questions. */
  lemma {:induction false} MatchesUpToIsCardinality(answers: map<int, string>, n: nat)
    ensures MatchesUpTo(answers, n) == |CorrectSet(answers, n)|
  {
    if n > 0 {
      MatchesUpToIsCardinality(answers, n - 1);
      if Matches(answers, n) {
        assert CorrectSet(answers, n) == CorrectSet(answers, n - 1) + {n};
      } else {
        assert CorrectSet(answers, n) == CorrectSet(answers, n - 1);
      }
    }
  }

  /** All of 1..n match exactly when the count reaches n. */
  lemma {:induction false} MatchesUpToFull(answers: map<int, string>, n: nat)
    ensures MatchesUpTo(answers, n) == n <==> forall i :: 1 <= i <= n ==> Matches(answers, i)
  {
    if n > 0 {
      MatchesUpToFull(answers, n - 1);
    }
  }

  /** The score is the number of questions 1..TotalQuestions whose answer
      equals the key; unanswered questions count as wrong; it lies in
      0..TotalQuestions. */
  lemma ScoreCharacterization(answers: map<int, string>)
    ensures Score(answers) == |set i | 1 <= i <= TotalQuestions && i in answers && answers[i] == CorrectAnswers[i]|
    ensures 0 <= Score(answers) <= TotalQuestions
  {
    MatchesUpToIsCardinality(answers, TotalQuestions);
    assert CorrectSet(answers, TotalQuestions)
        == set i | 1 <= i <= TotalQuestions && i in answers && answers[i] == CorrectAnswers[i];
  }

  /** A perfect score means every question is answered, and correctly. */
  lemma PerfectScoreIff(answers: map<int, string>)
    ensures Score(answers) == TotalQuestions <==>
            forall i :: 1 <= i <= TotalQuestions ==> i in answers && answers[i] == CorrectAnswers[i]
  {
    MatchesUpToFull(answers, TotalQuestions);
    KeyCoversQuestions();
    var all := forall i :: 1 <= i <= TotalQuestions ==> i in answers && answers[i] == CorrectAnswers[i];
    var allM := forall i :: 1 <= i <= TotalQuestions ==> Matches(answers, i);
    if allM {
      forall i | 1 <= i <= TotalQuestions
        ensures i in answers && answers[i] == CorrectAnswers[i]
      {
        assert Matches(answers, i);
      }
    }
    if all {
      forall i | 1 <= i <= TotalQuestions
        ensures Matches(answers, i)
      {
        assert i in CorrectAnswers;
      }
    }
  }

  /** With no answers the score is 0. */
  lemma {:induction false} NoAnswersScoreZero(n: nat)
    ensures MatchesUpTo(map[], n) == 0
  {
    if n > 0 {
      NoAnswersScoreZero(n - 1);
    }
  }

  /** Answering question q can change the count only at q: the score goes
      down by one if q was right before, up by one if it is right now. */
  lemma {:induction false} MatchesUpToAfterSelect(answers: map<int, string>, q: int, a: string, n: nat)
    ensures MatchesUpTo(answers[q := a], n)
         == MatchesUpTo(answers, n)
            - (if 1 <= q <= n && Matches(answers, q) then 1 else 0)
            + (if 1 <= q <= n && Matches(answers[q := a], q) then 1 else 0)
  {
    if n > 0 {
      MatchesUpToAfterSelect(answers, q, a, n - 1);
    }
  }

  lemma ScoreAfterSelect(answers: map<int, string>, q: int, a: string)
    ensures !(1 <= q <= TotalQuestions) ==> Score(answers[q := a]) == Score(answers)
    ensures 1 <= q <= TotalQuestions ==>
      Score(answers[q := a]) == Score(answers)
        - (if Matches(answers, q) then 1 else 0)
        + (if a == CorrectAnswers[q] then 1 else 0)
  {
    MatchesUpToAfterSelect(answers, q, a, TotalQuestions);
  }

  /** The counting loop of `finishQuiz`. */
  method CountScore(answers: map<int, string>) returns (score: nat)
    ensures score == Score(answers)
    ensures score <= TotalQuestions
  {
    score := 0;
    for i := 1 to TotalQuestions + 1
      invariant score == MatchesUpTo(answers, i - 1)
      invariant score <= i - 1
    {
      if i in answers && i in CorrectAnswers && answers[i] == CorrectAnswers[i] {
        score := score + 1;
      }
    }
  }

  // ---------------------------------------------------------------------
  // The result message.

  datatype Band = Perfect | Amazing | GreatJob | GoodEffort | MoreToLearn

  /** The if/else chain of `finishQuiz`, first match wins. */
  function BandFor(score: int): (b: Band)
    ensures b == Perfect <==> score == TotalQuestions
    ensures b == MoreToLearn <==> score < 4
  {
    if score == TotalQuestions then Perfect
    else if score >= 8 then Amazing
    else if score >= 6 then GreatJob
    else if score >= 4 then GoodEffort
    else MoreToLearn
  }

  /** The bands ordered from best to worst. */
  function Rank(b: Band): nat
  {
    match b
    case Perfect => 4
    case Amazing => 3
    case GreatJob => 2
    case GoodEffort => 1
    case MoreToLearn => 0
  }

  /** Each score in range picks the band of its threshold interval. */
  lemma BandIntervals(score: int)
    requires 0 <= score <= TotalQuestions
    ensures BandFor(score) == Perfect <==> score == TotalQuestions
    ensures BandFor(score) == Amazing <==> 8 <= score < TotalQuestions
    ensures BandFor(score) == GreatJob <==> 6 <= score < 8
    ensures BandFor(score) == GoodEffort <==> 4 <= score < 6
    ensures BandFor(score) == MoreToLearn <==> score < 4
  {
  }

  /** A higher score never gets a worse message. */
  lemma BandMonotone(s: int, t: int)
    requires 0 <= s <= t <= TotalQuestions
    ensures Rank(BandFor(s)) <= Rank(BandFor(t))
  {
  }

  // Each message is written as its opening words followed by the rest.
  const PerfectMessage: string := "Perfect!" + " You know us so well! \U{1F495} You truly pay attention to every detail of our relationship."
  const AmazingMessage: string := "Amazing!" + " You know us incredibly well! \U{1F31F} You're truly connected to every aspect of our relationship."
  const GreatJobMessage: string := "Great job!" + " You know us pretty well! \U{1F60A} There's always more to discover about each other."
  const GoodEffortMessage: string := "Good effort!" + " You're learning about us! \U{1F495} Keep discovering more about our beautiful relationship."
  const MoreToLearnMessage: string := "We" + " have so much more to learn about each other! \U{1F496} That's what makes our journey exciting."

  /** The text `finishQuiz` shows for each band. Its first two letters
      already tell the bands apart. */
  function Message(b: Band): (m: string)
    ensures |m| >= 2
    ensures m[..2] == match b
      case Perfect => "Pe" case Amazing => "Am" case GreatJob => "Gr"
      case GoodEffort => "Go" case MoreToLearn => "We"
  {
    match b
    case Perfect => PerfectMessage
    case Amazing => AmazingMessage
    case GreatJob => GreatJobMessage
    case GoodEffort => GoodEffortMessage
    case MoreToLearn => MoreToLearnMessage
  }

  /** Different bands show different messages. */
  lemma MessagesDistinct(b: Band, c: Band)
    requires b != c
    ensures Message(b) != Message(c)
  {
    assert Message(b)[..2] != Message(c)[..2];
  }

  /** `if (quizAnswers[q])`: a stored non-empty string is truthy. */
  predicate HasAnswer(answers: map<int, string>, q: int)
    ensures HasAnswer(answers, q) ==> q in answers
  {
    q in answers && answers[q] != ""
  }

  /** After `selectAnswer(q, a)`, question q counts as answered for
      `nextQuestion` exactly when `a` is non-empty; every other question
      keeps its status. */
  lemma HasAnswerAfterSelect(answers: map<int, string>, q: int, a: string, p: int)
    ensures HasAnswer(answers[q := a], p) <==> if p == q then a != "" else HasAnswer(answers, p)
  {
  }

  // ---------------------------------------------------------------------
  // The quiz's mutable state.

  class QuizState {
    var currentQuestion: int
    var quizAnswers: map<int, string>
    /** `prev-btn` is enabled. */
    var prevEnabled: bool
    /** `next-btn` is enabled. */
    var nextEnabled: bool
    /** `next-btn` reads "Finish Quiz" and calls `finishQuiz`. */
    var finishMode: bool
    /** The result panel is shown and the navigation hidden. */
    var resultShown: bool

    /** The index stays in range, Finish mode is on exactly at the last
        question, and Previous is enabled exactly after the first. */
    ghost predicate Valid()
      reads this
    {
      1 <= currentQuestion <= TotalQuestions &&
      (finishMode <==> currentQuestion == TotalQuestions) &&
      (prevEnabled <==> currentQuestion > 1)
    }

    /** The state at page load: question 1, no answers, both buttons
        disabled, Next mode. */
    constructor ()
      ensures Valid()
      ensures currentQuestion == 1 && quizAnswers == map[]
      ensures !prevEnabled && !nextEnabled && !finishMode && !resultShown
    {
      currentQuestion := 1;
      quizAnswers := map[];
      prevEnabled, nextEnabled, finishMode, resultShown := false, false, false, false;
    }

    /** `selectAnswer(questionNum, answer)`: store (or overwrite) the
        answer, enable Next, log quiz_answer. The question number is not
        checked. */
    method SelectAnswer(questionNum: int, answer: string, log: WebsiteAnalytics, at: string)
      requires Valid() && log.Valid()
      modifies this, log
      ensures Valid() && log.Valid()
      ensures quizAnswers == old(quizAnswers)[questionNum := answer]
      ensures forall q :: q != questionNum ==> (q in quizAnswers <==> q in old(quizAnswers))
      ensures forall q :: q != questionNum && q in quizAnswers ==> quizAnswers[q] == old(quizAnswers)[q]
      ensures nextEnabled
      ensures currentQuestion == old(currentQuestion) && prevEnabled == old(prevEnabled)
      ensures finishMode == old(finishMode) && resultShown == old(resultShown)
      ensures log.State() == Logged(old(log.State()), QuizAnswer(questionNum, answer, at))
    {
      quizAnswers := quizAnswers[questionNum := answer];
      nextEnabled := true;
      log.LogInteraction(QuizAnswer(questionNum, answer, at));
    }

    /** `nextQuestion()`: move forward only below the last question. */
    method NextQuestion()
      requires Valid()
      modifies this
      ensures Valid()
      ensures old(currentQuestion) < TotalQuestions ==>
        currentQuestion == old(currentQuestion) + 1 &&
        prevEnabled &&
        nextEnabled == HasAnswer(quizAnswers, currentQuestion) &&
        finishMode == (currentQuestion == TotalQuestions) &&
        quizAnswers == old(quizAnswers) && resultShown == old(resultShown)
      ensures old(currentQuestion) == TotalQuestions ==> unchanged(this)
    {
      if currentQuestion < TotalQuestions {
        currentQuestion := currentQuestion + 1;
        prevEnabled := true;
        nextEnabled := false;
        if HasAnswer(quizAnswers, currentQuestion) {
          nextEnabled := true;
        }
        if currentQuestion == TotalQuestions {
          finishMode := true;
        }
      }
    }

    /** `previousQuestion()`: move back only above the first question. */
    method PreviousQuestion()
      requires Valid()
      modifies this
      ensures Valid()
      ensures old(currentQuestion) > 1 ==>
        currentQuestion == old(currentQuestion) - 1 &&
        nextEnabled && !finishMode &&
        (prevEnabled <==> currentQuestion != 1) &&
        quizAnswers == old(quizAnswers) && resultShown == old(resultShown)
      ensures old(currentQuestion) == 1 ==> unchanged(this)
    {
      if currentQuestion > 1 {
        currentQuestion := currentQuestion - 1;
        nextEnabled := true;
        finishMode := false;
        if currentQuestion == 1 {
          prevEnabled := false;
        }
      }
    }

    /** `finishQuiz()`: count the score, pick the message, show the result
        and log quiz_completed. */
    method FinishQuiz(log: WebsiteAnalytics, at: string) returns (score: nat, band: Band, message: string)
      requires Valid() && log.Valid()
      modifies this, log
      ensures Valid() && log.Valid()
      ensures score == Score(quizAnswers) && score <= TotalQuestions
      ensures band == BandFor(score) && message == Message(band)
      ensures resultShown
      ensures currentQuestion == old(currentQuestion) && quizAnswers == old(quizAnswers)
      ensures prevEnabled == old(prevEnabled) && nextEnabled == old(nextEnabled)
      ensures finishMode == old(finishMode)
      ensures log.State() == Logged(old(log.State()), QuizCompleted(score, TotalQuestions, quizAnswers, at))
    {
      score := CountScore(quizAnswers);
      band := BandFor(score);
      message := Message(band);
      resultShown := true;
      log.LogInteraction(QuizCompleted(score, TotalQuestions, quizAnswers, at));
    }

    /** `restartQuiz()`: back to question 1 with no answers. */
    method RestartQuiz(log: WebsiteAnalytics, at: string)
      requires log.Valid()
      modifies this, log
      ensures Valid() && log.Valid()
      ensures currentQuestion == 1 && quizAnswers == map[]
      ensures !resultShown && !prevEnabled && !nextEnabled && !finishMode
      ensures log.State() == Logged(old(log.State()), QuizRestarted(at))
    {
      currentQuestion := 1;
      quizAnswers := map[];
      resultShown := false;
      prevEnabled, nextEnabled, finishMode := false, false, false;
      log.LogInteraction(QuizRestarted(at));
    }
  }
}
