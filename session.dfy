/** The quiz session: the state the `App` component keeps in `useState` and
    the handlers that update it. Each handler is one atomic update. Handlers
    reachable only from one screen require that screen's stage; a control the
    screen disables or hides is a guarded no-op. */
module Session {
  import opened Answers
  import opened Questions

  class QuizSession {
    var stage: Stage
    var questions: seq<Question>
    var currentQuestionIndex: nat
    var userAnswers: AnswerMap
    var reviewingQuestion: Option<nat>

    predicate Valid()
      reads this
    {
      Consistent(stage, questions, currentQuestionIndex, userAnswers, reviewingQuestion)
    }

    /** The initial state, before the bank has been loaded. */
    constructor ()
      ensures Valid()
      ensures stage == Home && questions == [] && currentQuestionIndex == 0
      ensures userAnswers == map[] && reviewingQuestion == None
    {
      stage := Home;
      questions := [];
      currentQuestionIndex := 0;
      userAnswers := map[];
      reviewingQuestion := None;
    }

    /** The one-time load: `data` is the bank as fetched, `shuffled` the order
        the random sort produced, a permutation of it. */
    method LoadQuestions(data: seq<Question>, shuffled: seq<Question>)
      requires Valid() && questions == []
      requires multiset(shuffled) == multiset(data)
      modifies this
      ensures Valid()
      ensures questions == Sample(shuffled)
      ensures |questions| == Min(|data|, SampleSize)
      ensures multiset(questions) <= multiset(data)
      ensures stage == old(stage) && currentQuestionIndex == old(currentQuestionIndex)
      ensures userAnswers == old(userAnswers) && reviewingQuestion == old(reviewingQuestion)
    {
      SampleWithoutReplacement(data, shuffled);
      questions := Sample(shuffled);
    }

    /** "Start Quiz": forget the answers, go to the first question. Nothing
        happens while no question has been loaded. */
    method Start()
      requires Valid() && stage == Home
      modifies this
      ensures Valid()
      ensures |questions| > 0 ==> stage == Quiz && userAnswers == map[] && currentQuestionIndex == 0
      ensures |questions| == 0 ==> stage == Home && userAnswers == old(userAnswers)
                                   && currentQuestionIndex == old(currentQuestionIndex)
      ensures questions == old(questions) && reviewingQuestion == old(reviewingQuestion)
    {
      if |questions| > 0 {
        userAnswers := map[];
        currentQuestionIndex := 0;
        stage := Quiz;
      }
    }

    /** `startQuiz` as the source has it, with no check that the bank has
        arrived: the state it leaves is consistent exactly when there are
        questions. */
    method StartAsWritten()
      requires Valid() && stage == Home
      modifies this
      ensures stage == Quiz && userAnswers == map[] && currentQuestionIndex == 0
      ensures questions == old(questions) && reviewingQuestion == old(reviewingQuestion)
      ensures Valid() <==> |questions| > 0
    {
      userAnswers := map[];
      currentQuestionIndex := 0;
      stage := Quiz;
    }

    /** `handleAnswerSelect`: a click on an option of the current question
        updates that question's chosen letters and nothing else. */
    method SelectAnswer(letter: Letter)
      requires Valid() && stage == Quiz
      requires letter in OptionLetters(questions[currentQuestionIndex].options)
      modifies this
      ensures Valid()
      ensures stage == old(stage) && questions == old(questions)
      ensures currentQuestionIndex == old(currentQuestionIndex)
      ensures reviewingQuestion == old(reviewingQuestion)
      ensures userAnswers == old(userAnswers)[currentQuestionIndex :=
                Select(AnswerAt(old(userAnswers), currentQuestionIndex), letter,
                       IsMultiple(questions[currentQuestionIndex]))]
      ensures !IsMultiple(questions[currentQuestionIndex]) ==> userAnswers[currentQuestionIndex] == [letter]
      ensures forall i :: i in old(userAnswers) && i != currentQuestionIndex ==>
                i in userAnswers && userAnswers[i] == old(userAnswers)[i]
    {
      var q := questions[currentQuestionIndex];
      var prev := AnswerAt(userAnswers, currentQuestionIndex);
      var updated := Select(prev, letter, IsMultiple(q));
      userAnswers := userAnswers[currentQuestionIndex := updated];
    }

    /** "Previous": disabled on the first question. */
    method Previous()
      requires Valid() && stage == Quiz
      modifies this
      ensures Valid()
      ensures currentQuestionIndex == if old(currentQuestionIndex) == 0 then 0 else old(currentQuestionIndex) - 1
      ensures stage == old(stage) && questions == old(questions)
      ensures userAnswers == old(userAnswers) && reviewingQuestion == old(reviewingQuestion)
    {
      if currentQuestionIndex != 0 {
        currentQuestionIndex := currentQuestionIndex - 1;
      }
    }

    /** "Next": shown instead of "Finish Quiz" on every question but the last. */
    method Next()
      requires Valid() && stage == Quiz
      modifies this
      ensures Valid()
      ensures currentQuestionIndex == if old(currentQuestionIndex) < |questions| - 1
                                      then old(currentQuestionIndex) + 1 else old(currentQuestionIndex)
      ensures stage == old(stage) && questions == old(questions)
      ensures userAnswers == old(userAnswers) && reviewingQuestion == old(reviewingQuestion)
    {
      if currentQuestionIndex != |questions| - 1 {
        currentQuestionIndex := currentQuestionIndex + 1;
      }
    }

    /** "Finish Quiz": shown on the last question only; goes to the summary. */
    method Finish()
      requires Valid() && stage == Quiz
      modifies this
      ensures Valid()
      ensures stage == if old(currentQuestionIndex) == |questions| - 1 then Summary else Quiz
      ensures questions == old(questions) && currentQuestionIndex == old(currentQuestionIndex)
      ensures userAnswers == old(userAnswers) && reviewingQuestion == old(reviewingQuestion)
    {
      if currentQuestionIndex == |questions| - 1 {
        stage := Summary;
      }
    }

    /** A question's button on the summary: review that question. */
    method Review(index: nat)
      requires Valid() && stage == Summary && index < |questions|
      modifies this
      ensures Valid()
      ensures stage == Reviewing && reviewingQuestion == Some(index)
      ensures questions == old(questions) && currentQuestionIndex == old(currentQuestionIndex)
      ensures userAnswers == old(userAnswers)
    {
      reviewingQuestion := Some(index);
      stage := Reviewing;
    }

    /** "Back to Summary": only the stage changes; the review cursor stays. */
    method BackToSummary()
      requires Valid() && stage == Reviewing
      modifies this
      ensures Valid()
      ensures stage == Summary
      ensures questions == old(questions) && currentQuestionIndex == old(currentQuestionIndex)
      ensures userAnswers == old(userAnswers) && reviewingQuestion == old(reviewingQuestion)
    {
      stage := Summary;
    }

    /** "Return Home" on the summary: only the stage changes; answers, cursor
        and questions stay until the next start. */
    method ReturnHome()
      requires Valid() && stage == Summary
      modifies this
      ensures Valid()
      ensures stage == Home
      ensures questions == old(questions) && currentQuestionIndex == old(currentQuestionIndex)
      ensures userAnswers == old(userAnswers) && reviewingQuestion == old(reviewingQuestion)
    {
      stage := Home;
    }

    /** The counter of `calculateScore`: how many questions are answered
        correctly. */
    method CorrectCount() returns (correct: nat)
      ensures correct == |CorrectIndices(questions, userAnswers)|
      ensures correct <= |questions|
    {
      correct := 0;
      var idx := 0;
      while idx < |questions|
        invariant idx <= |questions|
        invariant correct == CorrectPrefixCount(questions, userAnswers, idx)
      {
        if IsAnswerCorrect(questions, userAnswers, idx) {
          correct := correct + 1;
        }
        idx := idx + 1;
      }
      CorrectPrefixCountIsCardinality(questions, userAnswers, |questions|);
    }
  }
}
