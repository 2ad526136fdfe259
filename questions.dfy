/** The question bank and the derived queries of a quiz attempt: which
    questions are answered correctly, how many, how the bank is cut down to
    the questions of one attempt, and which session states are consistent. */
module Questions {
  import opened Answers

  /** A question as loaded: the prompt, the options "<Letter>. <text>" and the
      letters of the correct options (`correct_answers`). */
  datatype Question = Question(text: string, options: seq<string>, correctAnswers: seq<Letter>)

  /** The screen the application shows (`stage`). */
  datatype Stage = Home | Quiz | Summary | Reviewing

  datatype Option<T> = None | Some(value: T)

  /** The chosen letters, keyed by question index (`userAnswers`). */
  type AnswerMap = map<nat, seq<Letter>>

  /** How many questions one attempt draws from the bank. */
  const SampleSize: nat := 65

  function Min(a: nat, b: nat): nat {
    if a <= b then a else b
  }

  /** A question with more than one correct letter is answered by toggling. */
  predicate IsMultiple(q: Question) {
    |q.correctAnswers| > 1
  }

  /** The letters of a question's options, in order. */
  function OptionLetters(options: seq<string>): seq<Letter> {
    seq(|options|, k requires 0 <= k < |options| => OptionLetter(options[k]))
  }

  /** The chosen letters of question `i`; none when it was never answered. */
  function AnswerAt(answers: AnswerMap, i: nat): seq<Letter> {
    if i in answers then answers[i] else []
  }

  /** `isAnswerCorrect(i)`: the chosen letters of question `i` match its
      correct letters; a question never answered is wrong unless it has no
      correct letter at all. */
  function IsAnswerCorrect(questions: seq<Question>, answers: AnswerMap, i: nat): (r: bool)
    requires i < |questions|
    ensures r ==> |AnswerAt(answers, i)| == |questions[i].correctAnswers|
    ensures r ==> forall a :: a in AnswerAt(answers, i) ==> a in questions[i].correctAnswers
    ensures i !in answers && |questions[i].correctAnswers| > 0 ==> !r
  {
    Matches(AnswerAt(answers, i), questions[i].correctAnswers)
  }

  /** For a question whose correct letters are listed once each and whose
      chosen letters are well chosen, being correct is choosing exactly the
      correct letters. */
  lemma CorrectIsExactChoice(questions: seq<Question>, answers: AnswerMap, i: nat)
    requires i < |questions| && NoDup(questions[i].correctAnswers)
    requires i in answers ==> WellChosen(answers[i], questions[i])
    ensures IsAnswerCorrect(questions, answers, i) <==>
            Elems(AnswerAt(answers, i)) == Elems(questions[i].correctAnswers)
  {
    MatchesIsSetEquality(AnswerAt(answers, i), questions[i].correctAnswers);
  }

  /** The indices below `n` of the questions answered correctly. */
  function CorrectBelow(questions: seq<Question>, answers: AnswerMap, n: nat): set<nat>
    requires n <= |questions|
  {
    set i: nat | i < n && IsAnswerCorrect(questions, answers, i)
  }

  /** The indices of all questions answered correctly. */
  function CorrectIndices(questions: seq<Question>, answers: AnswerMap): set<nat> {
    CorrectBelow(questions, answers, |questions|)
  }

  /** The counter of `calculateScore` after it has looked at the first `n`
      questions. */
  function CorrectPrefixCount(questions: seq<Question>, answers: AnswerMap, n: nat): (r: nat)
    requires n <= |questions|
    ensures r <= n
  {
    if n == 0 then 0
    else CorrectPrefixCount(questions, answers, n - 1) + if IsAnswerCorrect(questions, answers, n - 1) then 1 else 0
  }

  /** The counter equals the number of correctly answered questions among the
      first `n`. */
  lemma {:induction false} CorrectPrefixCountIsCardinality(questions: seq<Question>, answers: AnswerMap, n: nat)
    requires n <= |questions|
    ensures CorrectPrefixCount(questions, answers, n) == |CorrectBelow(questions, answers, n)|
  {
    if n > 0 {
      CorrectPrefixCountIsCardinality(questions, answers, n - 1);
      var below := CorrectBelow(questions, answers, n - 1);
      if IsAnswerCorrect(questions, answers, n - 1) {
        assert CorrectBelow(questions, answers, n) == below + {n - 1};
        assert n - 1 !in below;
      } else {
        assert CorrectBelow(questions, answers, n) == below;
      }
    }
  }

  /** `shuffled.slice(0, 65)`: the questions of one attempt, a prefix of the
      shuffled bank. */
  function Sample(shuffled: seq<Question>): (r: seq<Question>)
    ensures |r| == Min(|shuffled|, SampleSize)
    ensures r <= shuffled
  {
    shuffled[..Min(|shuffled|, SampleSize)]
  }

  /** When the shuffled bank is a permutation of the loaded bank, the attempt
      holds min(N, 65) questions drawn without replacement from it. */
  lemma SampleWithoutReplacement(bank: seq<Question>, shuffled: seq<Question>)
    requires multiset(shuffled) == multiset(bank)
    ensures |Sample(shuffled)| == Min(|bank|, SampleSize)
    ensures multiset(Sample(shuffled)) <= multiset(bank)
  {
    var k := Min(|shuffled|, SampleSize);
    assert |shuffled| == |multiset(shuffled)| == |bank|;
    assert shuffled == shuffled[..k] + shuffled[k..];
  }

  /** What the session keeps for a question's chosen letters: no letter twice,
      at most one letter on a single-answer question, only letters of its
      options. */
  predicate WellChosen(answer: seq<Letter>, q: Question) {
    && NoDup(answer)
    && (!IsMultiple(q) ==> |answer| <= 1)
    && (forall a :: a in answer ==> a in OptionLetters(q.options))
  }

  /** The invariant of the session state: the quiz, summary and review screens
      need questions; the question cursor stays on a question; answers exist
      only for questions and are well chosen; the review cursor is a question
      and is set whenever the review screen shows. */
  predicate Consistent(stage: Stage, questions: seq<Question>, index: nat,
                       answers: AnswerMap, reviewing: Option<nat>)
  {
    && (stage != Home ==> |questions| > 0)
    && (index == 0 || index < |questions|)
    && (stage == Quiz ==> index < |questions|)
    && (forall i :: i in answers ==> i < |questions| && WellChosen(answers[i], questions[i]))
    && (reviewing.Some? ==> reviewing.value < |questions|)
    && (stage == Reviewing ==> reviewing.Some?)
  }
}
