/**
 * The decisions of `QuizUI` in ui.js with the DOM taken away: which answer the form holds,
 * when an answer is submitted and the quiz advanced, how the navigation buttons are set, and
 * which feedback the final percentage earns. The screen is a record of flags and texts.
 */
module QuizScreen {
  import opened Wrappers
  import opened Text
  import opened Numeric
  import opened QuizSession

  /** What the answer area of the page holds when an answer is read. */
  datatype Form = Form(
    selected: Option<nat>,       // the `data-option-index` of the selected option button, if any
    textarea: Option<string>,    // the value of the text area, if the page has one
    input: Option<string>)       // the value of the fill-in-the-blank input, if the page has one

  /** `value.trim() || null`: a missing field or one holding only whitespace gives no answer. */
  function TextAnswer(field: Option<string>): (r: Option<Answer>)
    ensures r.Some? <==> field.Some? && Trim(field.value) != ""
    ensures r.Some? ==> r.value == Written(Trim(field.value))
    ensures r.Some? ==> r.value.text != "" && Trim(r.value.text) == r.value.text
  {
    if field.Some? && Trim(field.value) != "" then
      TrimIdempotent(field.value);
      Some(Written(Trim(field.value)))
    else None
  }

  /**
   * `getUserAnswer`: the selected option for multiple choice, the trimmed text for the text
   * types, nothing for an unknown type. An answer it gives is one `checkAnswer` can grade.
   */
  function GetUserAnswer(q: Question, form: Form): (r: Option<Answer>)
    ensures r.Some? ==> Gradable(q, r.value)
    ensures q.kind.Mcq? ==> r == if form.selected.Some? then Some(OptionIndex(form.selected.value)) else None
    ensures (q.kind.ShortAnswer? || q.kind.LongAnswer?) ==> r == TextAnswer(form.textarea)
    ensures q.kind.FillBlank? ==> r == TextAnswer(form.input)
    ensures q.kind.Unrecognised? ==> r.None?
    ensures r.Some? && r.value.Written? ==> r.value.text != "" && Trim(r.value.text) == r.value.text
  {
    match q.kind
    case Mcq(_) => if form.selected.Some? then Some(OptionIndex(form.selected.value)) else None
    case ShortAnswer(_) => TextAnswer(form.textarea)
    case LongAnswer(_) => TextAnswer(form.textarea)
    case FillBlank(_) => TextAnswer(form.input)
    case Unrecognised(_) => None
  }

  /** `Math.round((score / total) * 100)` as a JavaScript number, `NaN` and the infinities included. */
  datatype Ratio = Finite(p: int) | PosInfinity | NegInfinity | NaN

  function ResultPercentage(score: int, total: int): (r: Ratio)
    ensures total > 0 ==> r == Finite(Percentage(score, total))
    ensures total == 0 ==> (r == PosInfinity <==> score > 0) && (r == NaN <==> score == 0)
  {
    if total > 0 then Finite(Percentage(score, total))
    else if total < 0 then Finite(Percentage(-score, -total))
    else if score > 0 then PosInfinity
    else if score < 0 then NegInfinity
    else NaN
  }

  /** The four feedback bands of `showResults`. */
  datatype Tier = Excellent | Good | NotBad | KeepPracticing

  /** `percentage >= 80`, then `>= 60`, then `>= 40`; every comparison with `NaN` is false. */
  function TierOf(r: Ratio): Tier
  {
    match r
    case Finite(p) => if p >= 80 then Excellent else if p >= 60 then Good else if p >= 40 then NotBad else KeepPracticing
    case PosInfinity => Excellent
    case NegInfinity => KeepPracticing
    case NaN => KeepPracticing
  }

  function ResultTier(score: int, total: int): Tier
  {
    TierOf(ResultPercentage(score, total))
  }

  function TierText(t: Tier): string
  {
    match t
    case Excellent => "Excellent work! You have a strong understanding of this topic."
    case Good => "Good job! You have a decent understanding, but there's room for improvement."
    case NotBad => "Not bad! Consider reviewing the material to strengthen your knowledge."
    case KeepPracticing => "Keep practicing! You might want to review the basics before trying again."
  }

  /** The feedback line of the results screen. */
  function FeedbackMessage(correct: nat, totalQuestions: nat, t: Tier): string
  {
    "You got " + NatToString(correct) + " out of " + NatToString(totalQuestions) + " questions correct. " + TierText(t)
  }

  /**
   * With points to earn, the band is decided by the exact score: a rounded percentage of at
   * least 80 means at least 79.5 percent, and so on down.
   */
  lemma {:induction false} TierBands(score: int, total: int)
    requires total > 0
    ensures ResultTier(score, total) == Excellent <==> 200 * score >= 159 * total
    ensures ResultTier(score, total) == Good <==> 119 * total <= 200 * score < 159 * total
    ensures ResultTier(score, total) == NotBad <==> 79 * total <= 200 * score < 119 * total
    ensures ResultTier(score, total) == KeepPracticing <==> 200 * score < 79 * total
  {
    PercentageAtLeast(score, total, 80);
    PercentageAtLeast(score, total, 60);
    PercentageAtLeast(score, total, 40);
  }

  /** The rank of a band, best first. */
  function TierRank(t: Tier): nat
  {
    match t
    case Excellent => 0
    case Good => 1
    case NotBad => 2
    case KeepPracticing => 3
  }

  /** More points over the same total never earn a worse band. */
  lemma TierMonotone(s1: int, s2: int, total: int)
    requires total > 0 && s1 <= s2
    ensures TierRank(ResultTier(s2, total)) <= TierRank(ResultTier(s1, total))
  {
    PercentageMonotone(s1, s2, total);
  }

  /** Full marks are excellent, no marks mean practising more; an empty quiz also asks for practice. */
  lemma TierEnds(total: int)
    requires total > 0
    ensures ResultTier(total, total) == Excellent && ResultTier(0, total) == KeepPracticing
    ensures ResultTier(0, 0) == KeepPracticing
  {
    PercentageEnds(total);
  }

  datatype Screen = Setup | Questions | Results

  const TopicAlert := "Please enter a topic for your quiz"
  const ProceedAlert := "Please provide an answer before proceeding"
  const SubmitAlert := "Please provide an answer before submitting"

  /** `QuizUI` over the quiz session it drives. */
  class QuizUI {
    const quiz: QuizGenerator
    var screen: Screen
    var shownIndex: int          // the question counter shows `shownIndex + 1`
    var prevDisabled: bool
    var nextHidden: bool
    var submitHidden: bool
    var nextDisabled: bool
    var feedback: string
    var alerts: seq<string>      // the messages shown with `alert`, oldest first

    predicate Valid()
      reads this, quiz, quiz.questions
    {
      quiz.Valid()
    }

    constructor (session: QuizGenerator)
      requires session.Valid()
      ensures Valid() && quiz == session && screen == Setup && alerts == []
    {
      quiz := session;
      screen := Setup;
      shownIndex := 0;
      prevDisabled := false;
      nextHidden := false;
      submitHidden := false;
      nextDisabled := false;
      feedback := "";
      alerts := [];
    }

    /**
     * `startQuiz`: a topic that is empty once trimmed is refused with an alert and the session
     * is not touched; otherwise the quiz is generated and its first question shown. `count` is
     * the parsed question count and `rolls`, `keys`, `js` the random draws of generation.
     */
    method StartQuiz(topicField: string, difficultyField: string, count: nat, rolls: seq<nat>, keys: seq<nat>, js: seq<nat>)
      requires Valid() && GenerationDraws(count, rolls, keys) && SwapChoices(js, 4 * count)
      modifies this, quiz
      ensures Valid()
      ensures Trim(topicField) == "" ==>
        && alerts == old(alerts) + [TopicAlert] && screen == old(screen) && feedback == old(feedback)
        && shownIndex == old(shownIndex) && prevDisabled == old(prevDisabled) && nextHidden == old(nextHidden)
        && submitHidden == old(submitHidden) && nextDisabled == old(nextDisabled)
        && quiz.questions == old(quiz.questions) && quiz.userAnswers == old(quiz.userAnswers)
        && quiz.score == old(quiz.score) && quiz.currentQuestionIndex == old(quiz.currentQuestionIndex)
        && quiz.timeLeft == old(quiz.timeLeft) && quiz.timerRunning == old(quiz.timerRunning)
      ensures Trim(topicField) != "" ==>
        var difficulty := if difficultyField == "" then "medium" else difficultyField;
        && alerts == old(alerts) && screen == Questions
        && quiz.questions[..] == FisherYates(MockQuestions(Trim(topicField), difficulty, count, rolls, keys), js)
        && quiz.currentQuestionIndex == 0 && quiz.score == 0 && quiz.userAnswers == []
        && quiz.timeLeft == quiz.quizDuration && quiz.timerRunning && feedback == old(feedback)
        && (count > 0 ==> shownIndex == 0 && NavigationSet(0, old(nextDisabled)))
        && (count == 0 ==>
              && shownIndex == old(shownIndex) && prevDisabled == old(prevDisabled) && nextHidden == old(nextHidden)
              && submitHidden == old(submitHidden) && nextDisabled == old(nextDisabled))
    {
      var topic := Trim(topicField);
      if topic == "" {
        alerts := alerts + [TopicAlert];
        return;
      }
      var difficulty := if difficultyField == "" then "medium" else difficultyField;
      Launch(topic, difficulty, count, rolls, keys, js);
    }

    /** The part of `startQuiz` after the topic check: generate, switch screens, show the first question. */
    method Launch(topic: string, difficulty: string, count: nat, rolls: seq<nat>, keys: seq<nat>, js: seq<nat>)
      requires Valid() && GenerationDraws(count, rolls, keys) && SwapChoices(js, 4 * count)
      modifies this, quiz
      ensures Valid() && alerts == old(alerts) && screen == Questions
      ensures quiz.questions[..] == FisherYates(MockQuestions(topic, difficulty, count, rolls, keys), js)
      ensures quiz.currentQuestionIndex == 0 && quiz.score == 0 && quiz.userAnswers == []
      ensures quiz.timeLeft == quiz.quizDuration && quiz.timerRunning && feedback == old(feedback)
      ensures count > 0 ==> shownIndex == 0 && NavigationSet(0, old(nextDisabled))
      ensures count == 0 ==>
        && shownIndex == old(shownIndex) && prevDisabled == old(prevDisabled) && nextHidden == old(nextHidden)
        && submitHidden == old(submitHidden) && nextDisabled == old(nextDisabled)
    {
      var _ := quiz.GenerateQuiz(topic, difficulty, count, rolls, keys, js);
      screen := Questions;
      ShowQuestion(0);
    }

    /** `showQuestion`: an index with no question changes nothing; otherwise it is shown. */
    method ShowQuestion(i: int)
      requires Valid()
      modifies this`shownIndex, this`prevDisabled, this`nextHidden, this`submitHidden, this`nextDisabled
      ensures Valid()
      ensures !(0 <= i < quiz.questions.Length) ==>
        shownIndex == old(shownIndex) && prevDisabled == old(prevDisabled) && nextHidden == old(nextHidden)
        && submitHidden == old(submitHidden) && nextDisabled == old(nextDisabled)
      ensures 0 <= i < quiz.questions.Length ==> shownIndex == i && NavigationSet(i, old(nextDisabled))
    {
      if !(0 <= i < quiz.questions.Length) {
        return;
      }
      shownIndex := i;
      UpdateNavigationButtons(i);
    }

    /**
     * The button state `updateNavigationButtons` leaves for index `i`: back is disabled only on
     * the first question, exactly one of next and submit is visible (submit on the last
     * question), and next starts disabled on every question but the last.
     */
    predicate NavigationSet(i: int, nextDisabledBefore: bool)
      reads this, quiz, quiz.questions
    {
      var isLast := i == quiz.questions.Length - 1;
      && (prevDisabled <==> i == 0)
      && nextHidden == isLast && submitHidden == !isLast
      && nextDisabled == (if i < quiz.questions.Length - 1 then true else nextDisabledBefore)
    }

    /** `updateNavigationButtons`. */
    method UpdateNavigationButtons(i: int)
      modifies this`prevDisabled, this`nextHidden, this`submitHidden, this`nextDisabled
      ensures NavigationSet(i, old(nextDisabled))
    {
      prevDisabled := i == 0;
      var isLast := i == quiz.questions.Length - 1;
      nextHidden := isLast;
      submitHidden := !isLast;
      if i < quiz.questions.Length - 1 {
        nextDisabled := true;
      }
    }

    /** The question on screen, as `getCurrentQuestion` gives it. */
    function Current(): Question
      requires Valid() && quiz.questions.Length > 0
      reads this, quiz, quiz.questions
    {
      quiz.questions[quiz.currentQuestionIndex]
    }

    /** `submitAnswer(currentQuestion.id, answer)`: the current question's id finds that very question. */
    method SubmitCurrent(a: Answer)
      requires Valid() && quiz.questions.Length > 0 && Gradable(Current(), a)
      modifies quiz`score, quiz`userAnswers
      ensures Valid()
      ensures quiz.userAnswers == old(quiz.userAnswers) + [Graded(Current(), a)]
    {
      IndexOfOwnId(quiz.questions[..], quiz.currentQuestionIndex);
      var _ := quiz.SubmitAnswer(Current().id, a);
    }

    /**
     * `showNextQuestion`: without an answer it only alerts. With one it submits it for the
     * current question, then moves on, or shows the results when that was the last question.
     */
    method ShowNextQuestion(form: Form)
      requires Valid() && quiz.questions.Length > 0
      modifies this`alerts, this`shownIndex, this`prevDisabled, this`nextHidden, this`submitHidden,
        this`nextDisabled, this`screen, this`feedback, quiz`score, quiz`userAnswers, quiz`currentQuestionIndex
      ensures Valid()
      ensures var q := old(Current());
        GetUserAnswer(q, form).None? ==>
          && alerts == old(alerts) + [ProceedAlert] && screen == old(screen) && feedback == old(feedback)
          && shownIndex == old(shownIndex) && prevDisabled == old(prevDisabled) && nextHidden == old(nextHidden)
          && submitHidden == old(submitHidden) && nextDisabled == old(nextDisabled)
          && quiz.score == old(quiz.score) && quiz.userAnswers == old(quiz.userAnswers)
          && quiz.currentQuestionIndex == old(quiz.currentQuestionIndex)
      ensures var q := old(Current());
        GetUserAnswer(q, form).Some? ==>
          && alerts == old(alerts)
          && quiz.userAnswers == old(quiz.userAnswers) + [Graded(q, GetUserAnswer(q, form).value)]
          && (old(quiz.currentQuestionIndex) < quiz.questions.Length - 1 ==>
                && quiz.currentQuestionIndex == old(quiz.currentQuestionIndex) + 1
                && screen == old(screen) && feedback == old(feedback) && shownIndex == quiz.currentQuestionIndex
                && NavigationSet(shownIndex, old(nextDisabled)))
          && (old(quiz.currentQuestionIndex) == quiz.questions.Length - 1 ==>
                && quiz.currentQuestionIndex == old(quiz.currentQuestionIndex) && screen == Results
                && feedback == ResultsFeedback(quiz.GetScore())
                && shownIndex == old(shownIndex) && prevDisabled == old(prevDisabled) && nextHidden == old(nextHidden)
                && submitHidden == old(submitHidden) && nextDisabled == old(nextDisabled))
    {
      var answer := GetUserAnswer(Current(), form);
      if answer.None? {
        alerts := alerts + [ProceedAlert];
        return;
      }
      SubmitCurrent(answer.value);
      Advance();
    }

    /** The part of `showNextQuestion` after submission: `nextQuestion`, then the question or the results. */
    method Advance()
      requires Valid()
      modifies this`shownIndex, this`prevDisabled, this`nextHidden, this`submitHidden, this`nextDisabled,
        this`screen, this`feedback, quiz`currentQuestionIndex
      ensures Valid()
      ensures old(quiz.currentQuestionIndex) < quiz.questions.Length - 1 ==>
        && quiz.currentQuestionIndex == old(quiz.currentQuestionIndex) + 1
        && screen == old(screen) && feedback == old(feedback) && shownIndex == quiz.currentQuestionIndex
        && NavigationSet(shownIndex, old(nextDisabled))
      ensures old(quiz.currentQuestionIndex) >= quiz.questions.Length - 1 ==>
        && quiz.currentQuestionIndex == old(quiz.currentQuestionIndex) && screen == Results
        && feedback == ResultsFeedback(quiz.GetScore())
        && shownIndex == old(shownIndex) && prevDisabled == old(prevDisabled) && nextHidden == old(nextHidden)
        && submitHidden == old(submitHidden) && nextDisabled == old(nextDisabled)
    {
      var next := quiz.NextQuestion();
      if next.Some? {
        ShowQuestion(quiz.currentQuestionIndex);
      } else {
        ShowResults();
      }
    }

    /** `showPreviousQuestion`: step back and show that question; on the first question nothing changes. */
    method ShowPreviousQuestion()
      requires Valid()
      modifies this`shownIndex, this`prevDisabled, this`nextHidden, this`submitHidden, this`nextDisabled,
        quiz`currentQuestionIndex
      ensures Valid()
      ensures old(quiz.currentQuestionIndex) > 0 ==>
        quiz.currentQuestionIndex == old(quiz.currentQuestionIndex) - 1 && shownIndex == quiz.currentQuestionIndex
        && NavigationSet(shownIndex, old(nextDisabled))
      ensures old(quiz.currentQuestionIndex) == 0 ==>
        quiz.currentQuestionIndex == 0 && shownIndex == old(shownIndex)
        && prevDisabled == old(prevDisabled) && nextHidden == old(nextHidden)
        && submitHidden == old(submitHidden) && nextDisabled == old(nextDisabled)
    {
      var prev := quiz.PreviousQuestion();
      if prev.Some? {
        ShowQuestion(quiz.currentQuestionIndex);
      }
    }

    /**
     * `submitQuiz`: without an answer it only alerts; with one it submits it for the current
     * question and shows the results, wherever the quiz stands.
     */
    method SubmitQuiz(form: Form)
      requires Valid() && quiz.questions.Length > 0
      modifies this`alerts, this`screen, this`feedback, quiz`score, quiz`userAnswers
      ensures Valid()
      ensures var q := old(Current());
        GetUserAnswer(q, form).None? ==>
          && alerts == old(alerts) + [SubmitAlert] && screen == old(screen) && feedback == old(feedback)
          && quiz.score == old(quiz.score) && quiz.userAnswers == old(quiz.userAnswers)
      ensures var q := old(Current());
        GetUserAnswer(q, form).Some? ==>
          && alerts == old(alerts) && screen == Results
          && quiz.userAnswers == old(quiz.userAnswers) + [Graded(q, GetUserAnswer(q, form).value)]
          && feedback == ResultsFeedback(quiz.GetScore())
    {
      var answer := GetUserAnswer(Current(), form);
      if answer.None? {
        alerts := alerts + [SubmitAlert];
        return;
      }
      SubmitCurrent(answer.value);
      ShowResults();
    }

    /** `endQuizEarly`: the results, whatever has been answered. */
    method EndQuizEarly()
      requires Valid()
      modifies this`screen, this`feedback
      ensures Valid() && screen == Results && feedback == ResultsFeedback(quiz.GetScore())
    {
      ShowResults();
    }

    /** `showResults`: the feedback for the current score, and the results screen. */
    method ShowResults()
      requires Valid()
      modifies this`screen, this`feedback
      ensures Valid() && screen == Results && feedback == ResultsFeedback(quiz.GetScore())
    {
      var report := quiz.GetScore();
      feedback := ResultsFeedback(report);
      screen := Results;
    }
  }

  /** The record `submitAnswer` appends for an answer to a question. */
  function Graded(q: Question, a: Answer): AnswerRecord
    requires Gradable(q, a)
  {
    AnswerRecord(q.id, a, CheckAnswer(q, a), if CheckAnswer(q, a) then q.points else 0)
  }

  /** The feedback line for a score report. */
  function ResultsFeedback(report: ScoreReport): string
  {
    FeedbackMessage(report.correct, report.totalQuestions, ResultTier(report.score, report.total))
  }
}
