/** The quiz run (src/pages/Quiz.jsx): one question at a time, a selected
    answer, and the answers recorded so far. */
module QuizPage {
  import opened Common
  import opened QuizUtils
  import opened AppContext

  datatype Question = Question(id: int, category: Category, weight: int)

  /** The ten questions of the career data, without their wording. */
  const QuizQuestions: seq<Question> := [
    Question(1, Science, 2), Question(2, Science, 2),
    Question(3, Commerce, 2), Question(4, Commerce, 2),
    Question(5, Arts, 2), Question(6, Arts, 2),
    Question(7, Science, 1), Question(8, Commerce, 1),
    Question(9, Arts, 1), Question(10, Science, 1)]

  /** The answer `handleNext` records for question `q`. */
  function AnswerTo(q: Question, response: string): Answer
  {
    Answer(q.id, response, q.category, q.weight)
  }

  predicate IsChoice(s: string) { s == "yes" || s == "no" }

  /** The displayed progress `Math.round((i + 1) / n * 100)` on question `i`
      of `n`. */
  function ProgressPercent(i: nat, n: nat): (p: nat)
    requires i < n
    ensures p <= 100
    ensures 2 * n * p <= 200 * (i + 1) + n < 2 * n * (p + 1)
  {
    RoundedPercentBounds(i + 1, n);
    RoundedPercent(i + 1, n)
  }

  /** The progress shown never decreases as the run advances. */
  lemma ProgressMonotone(i: nat, j: nat, n: nat)
    requires i <= j < n
    ensures ProgressPercent(i, n) <= ProgressPercent(j, n)
  {
    RoundedPercentMonotone(i + 1, j + 1, n);
  }

  /** The last question shows 100%, and only the last one does with the
      ten questions of the quiz. */
  lemma ProgressLast(i: nat, n: nat)
    requires i < n < 200
    ensures ProgressPercent(i, n) == 100 <==> i == n - 1
  {
    RoundedPercentBounds(i + 1, n);
    if i < n - 1 {
      RoundedPercentBelowWhole(i + 1, n);
    }
  }

  /** The answers are "yes" or "no" answers to the first questions, in
      order. */
  predicate Recorded(questions: seq<Question>, answers: seq<Answer>)
  {
    |answers| <= |questions| &&
    forall i :: 0 <= i < |answers| ==>
      IsChoice(answers[i].response) && answers[i] == AnswerTo(questions[i], answers[i].response)
  }

  /** Answering the next question keeps the answers recorded in order. */
  lemma RecordedExtend(questions: seq<Question>, answers: seq<Answer>, response: string)
    requires Recorded(questions, answers) && |answers| < |questions| && IsChoice(response)
    ensures Recorded(questions, answers + [AnswerTo(questions[|answers|], response)])
  {
  }

  /** Answers recorded for every question carry the questions' ids, in
      order. */
  lemma RecordedIds(questions: seq<Question>, answers: seq<Answer>)
    requires Recorded(questions, answers) && |answers| == |questions|
    ensures forall i :: 0 <= i < |questions| ==> answers[i].questionId == questions[i].id
  {
  }

  class QuizRun {
    const questions: seq<Question>
    var currentQuestion: nat
    var answers: seq<Answer>
    var selectedAnswer: string

    /** The answers so far are the answers to the first questions, in order,
        each "yes" or "no"; one per question before the current one, or one per
        question once the last has been answered. */
    ghost predicate Valid()
      reads this
    {
      0 < |questions| && currentQuestion < |questions| &&
      (|answers| == currentQuestion || Finished()) &&
      Recorded(questions, answers) &&
      (selectedAnswer == "" || IsChoice(selectedAnswer))
    }

    /** After the last Next: every question answered, the index left on the
        last question. */
    predicate Finished()
      reads this
    {
      |answers| == |questions| && currentQuestion + 1 == |questions|
    }

    predicate InProgress()
      reads this
    {
      |answers| == currentQuestion
    }

    constructor(questions: seq<Question>)
      requires 0 < |questions|
      ensures this.questions == questions
      ensures currentQuestion == 0 && answers == [] && selectedAnswer == ""
      ensures Valid() && InProgress()
    {
      this.questions := questions;
      currentQuestion := 0;
      answers := [];
      selectedAnswer := "";
    }

    function IsLastQuestion(): (b: bool)
      reads this
      requires Valid()
      ensures b <==> currentQuestion == |questions| - 1
    {
      currentQuestion == |questions| - 1
    }

    /** The displayed progress of the current question. */
    function Progress(): (p: nat)
      reads this
      requires Valid()
      ensures p <= 100
      ensures IsLastQuestion() ==> p == 100
    {
      RoundedPercentBounds(currentQuestion + 1, |questions|);
      ProgressPercent(currentQuestion, |questions|)
    }

    /** The two answer buttons. */
    method HandleAnswerSelect(answer: string)
      requires Valid() && IsChoice(answer)
      modifies this
      ensures selectedAnswer == answer
      ensures currentQuestion == old(currentQuestion) && answers == old(answers)
      ensures Valid()
    {
      selectedAnswer := answer;
    }

    /** `handleNext`, enabled once an answer is selected. Records the answer;
        on the last question stores the results and leaves the page, otherwise
        moves on and clears the selection. */
    method HandleNext(store: AppStore)
      requires Valid() && InProgress() && selectedAnswer != ""
      modifies this, store
      ensures answers == old(answers) + [AnswerTo(questions[old(currentQuestion)], old(selectedAnswer))]
      ensures Valid()
      ensures old(IsLastQuestion()) ==>
        Finished() && currentQuestion == old(currentQuestion) && selectedAnswer == old(selectedAnswer) &&
        store.state == Reduce(Reduce(old(store.state), SetQuizResults(PatchOf(QuizResultOf(answers)))),
                              SetCurrentPage(if LoggedIn(old(store.state.user)) then "results" else "auth")) &&
        store.state.quizResults == QuizResultOf(answers) &&
        (forall i :: 0 <= i < |questions| ==> answers[i].questionId == questions[i].id)
      ensures !old(IsLastQuestion()) ==>
        InProgress() && currentQuestion == old(currentQuestion) + 1 && selectedAnswer == "" &&
        store.state == old(store.state)
    {
      var question := questions[currentQuestion];
      var newAnswer := AnswerTo(question, selectedAnswer);
      var updatedAnswers := answers + [newAnswer];
      var loggedIn := LoggedIn(store.state.user);
      RecordedExtend(questions, answers, selectedAnswer);
      answers := updatedAnswers;
      if currentQuestion == |questions| - 1 {
        SubmitResults(store, updatedAnswers, loggedIn);
        RecordedIds(questions, answers);
      } else {
        currentQuestion := currentQuestion + 1;
        selectedAnswer := "";
      }
    }

    /** `handlePrevious`: nothing on the first question; otherwise one step
        back, dropping the last answer and the selection. */
    method HandlePrevious()
      requires Valid() && InProgress()
      modifies this
      ensures Valid() && InProgress()
      ensures old(currentQuestion) == 0 ==>
        currentQuestion == 0 && answers == old(answers) && selectedAnswer == old(selectedAnswer)
      ensures old(currentQuestion) > 0 ==>
        currentQuestion == old(currentQuestion) - 1 && answers == old(answers)[..|old(answers)| - 1] &&
        selectedAnswer == ""
    {
      if currentQuestion > 0 {
        currentQuestion := currentQuestion - 1;
        answers := answers[..|answers| - 1];
        selectedAnswer := "";
      }
    }
  }

  /** The last step of `handleNext`: the results of the answers are stored,
      then the results page opens, or the sign-in page for a visitor. */
  method SubmitResults(store: AppStore, answers: seq<Answer>, loggedIn: bool)
    requires loggedIn == LoggedIn(store.state.user)
    modifies store
    ensures store.state == Reduce(Reduce(old(store.state), SetQuizResults(PatchOf(QuizResultOf(answers)))),
                                  SetCurrentPage(if loggedIn then "results" else "auth"))
    ensures store.state.quizResults == QuizResultOf(answers)
  {
    var results := CalculateQuizResults(answers);
    ghost var before := store.state;
    store.SetQuizResults(PatchOf(results));
    FullPatchReplaces(before.quizResults, results);
    if !loggedIn {
      store.SetCurrentPage("auth");
    } else {
      store.SetCurrentPage("results");
    }
  }

  /** Answering every question of the quiz in turn records one answer per
      question, in question order, and gives the result of those answers. */
  method RunQuiz(responses: seq<string>, store: AppStore) returns (run: QuizRun)
    requires |responses| == |QuizQuestions|
    requires forall i :: 0 <= i < |responses| ==> IsChoice(responses[i])
    modifies store
    ensures run.Finished()
    ensures run.answers == seq(|QuizQuestions|, i requires 0 <= i < |QuizQuestions| => AnswerTo(QuizQuestions[i], responses[i]))
    ensures store.state.quizResults == QuizResultOf(run.answers)
  {
    run := new QuizRun(QuizQuestions);
    while run.currentQuestion < |QuizQuestions| - 1
      invariant run.Valid() && run.InProgress() && run.questions == QuizQuestions
      invariant forall i :: 0 <= i < |run.answers| ==> run.answers[i].response == responses[i]
      decreases |QuizQuestions| - run.currentQuestion
    {
      run.HandleAnswerSelect(responses[run.currentQuestion]);
      run.HandleNext(store);
    }
    run.HandleAnswerSelect(responses[run.currentQuestion]);
    run.HandleNext(store);
  }
}
