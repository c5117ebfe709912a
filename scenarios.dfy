/** End-to-end runs of the app's flow: lesson list, practice page, quiz, completion. */
module Scenarios {
  import opened Wrappers
  import opened VocabData
  import opened Progress
  import opened Practice
  import opened Quiz

  function Greetings(): Dataset
  {
    [Lesson("Greetings", [Word("hola", "ahoj", Some("Phrase")), Word("gato", "kočka", Some("Noun"))])]
  }

  /** Open the practice page for lesson 0 of the Greetings dataset. */
  method StartGreetings(rolls: nat -> nat, esCz: bool) returns (quiz: QuizSession)
    ensures fresh(quiz) && quiz.Valid() && quiz.phase == Asking
    ensures |quiz.words| == 2 && quiz.currentIndex == 0
    ensures quiz.initialCount == 2 && quiz.correctCount == 0 && quiz.wrongCount == 0
    ensures quiz.isSingleLesson && quiz.lessonId == 0
  {
    var view := BuildPractice(Greetings(), Some(0), []);
    assert view.Render?;
    quiz := new QuizSession(view.practiceData, view.allDict, rolls, esCz, rolls, rolls);
    assert |multiset(quiz.words)| == |multiset(Greetings()[0].words)|;
  }

  /**
   * Practising lesson 0 and answering both questions correctly reaches the end screen
   * after two questions, sends one completion request, and marks the lesson complete.
   */
  method PerfectRun(rolls: nat -> nat, esCz: bool) returns (requests: seq<int>, questions: nat, complete: bool)
    ensures requests == [0] && questions == 2 && complete
  {
    var quiz := StartGreetings(rolls, esCz);
    questions := 0;
    while quiz.phase != Finished
      invariant quiz.Valid() && quiz.phase != Answered
      invariant quiz.initialCount == 2 && quiz.wrongCount == 0 && quiz.currentIndex == questions
      invariant quiz.isSingleLesson && quiz.lessonId == 0
      decreases 2 - questions
    {
      var ok := quiz.CheckAnswer(quiz.correctAnswer);
      quiz.NextQuestion(esCz, rolls, rolls);
      questions := questions + 1;
    }
    requests := quiz.completionRequests;
    var session := new Session();
    var status := session.MarkComplete(requests[0]);
    complete := session.IsComplete(0);
  }

  /**
   * Missing the first question once and then answering everything correctly takes
   * three questions: the missed word comes back exactly once.
   */
  method OneMiss(rolls: nat -> nat, esCz: bool) returns (questions: nat, missedWordReturns: bool)
    ensures questions == 3 && missedWordReturns
  {
    var quiz := StartGreetings(rolls, esCz);
    var before := quiz.words;
    var ok := quiz.CheckAnswer(quiz.correctAnswer + "?");
    assert !ok;
    missedWordReturns := quiz.words == before + [before[0]];
    quiz.NextQuestion(esCz, rolls, rolls);
    questions := 1;
    while quiz.phase != Finished
      invariant quiz.Valid() && quiz.phase != Answered
      invariant quiz.initialCount == 2 && quiz.wrongCount == 1 && quiz.currentIndex == questions
      decreases 3 - questions
    {
      ok := quiz.CheckAnswer(quiz.correctAnswer);
      quiz.NextQuestion(esCz, rolls, rolls);
      questions := questions + 1;
    }
  }

  /** A custom selection of a lesson that does not exist redirects to the lesson list. */
  method MissingLesson() returns (view: PracticeView)
    ensures view == Redirect
  {
    var data := Greetings() + [Lesson("Animals", [])];
    view := BuildPractice(data, None, [5]);
    assert [5][..0] == [];
  }
}
