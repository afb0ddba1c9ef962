/** The multiple-choice assessment screen: answers are recorded per question
    index, the student steps through the questions, and the percentage score is
    the rounded share of correct answers. */
module AssessmentScreen {
  import opened Types
  import JsMath

  /** The recorded answer of question `i`; slots never written read as unanswered. */
  function Answer(answers: seq<Option<int>>, i: nat): Option<int> {
    if i < |answers| then answers[i] else None
  }

  /** `k` unanswered slots. */
  function Holes(k: nat): (h: seq<Option<int>>)
    ensures |h| == k && forall j :: 0 <= j < k ==> h[j] == None
  {
    if k == 0 then [] else Holes(k - 1) + [None]
  }

  /** The array copy with slot `i` set: writing past the end leaves the gap unanswered. */
  function Record(answers: seq<Option<int>>, i: nat, option: int): (r: seq<Option<int>>)
    ensures Answer(r, i) == Some(option)
    ensures forall j: nat :: j != i ==> Answer(r, j) == Answer(answers, j)
    ensures |r| == if i < |answers| then |answers| else i + 1
  {
    if i < |answers| then answers[i := Some(option)]
    else answers + Holes(i - |answers|) + [Some(option)]
  }

  /** Question `i` counts when its recorded answer is its correct option. */
  predicate IsCorrect(qs: seq<Question>, answers: seq<Option<int>>, i: nat)
    requires i < |qs|
  {
    Answer(answers, i) == Some(qs[i].correctAnswer)
  }

  /** The number of correctly answered questions among the first `k`. */
  function CorrectCount(qs: seq<Question>, answers: seq<Option<int>>, k: nat): (c: nat)
    requires k <= |qs|
    ensures c <= k
    decreases k
  {
    if k == 0 then 0
    else CorrectCount(qs, answers, k - 1) + (if IsCorrect(qs, answers, k - 1) then 1 else 0)
  }

  /** Every question counts exactly when every question is answered correctly. */
  lemma {:induction false} AllCorrectIff(qs: seq<Question>, answers: seq<Option<int>>, k: nat)
    requires k <= |qs|
    ensures CorrectCount(qs, answers, k) == k <==> forall i :: 0 <= i < k ==> IsCorrect(qs, answers, i)
    decreases k
  {
    if k > 0 {
      AllCorrectIff(qs, answers, k - 1);
    }
  }

  /** No question counts exactly when no question is answered correctly; in
      particular unanswered questions never count. */
  lemma {:induction false} NoneCorrectIff(qs: seq<Question>, answers: seq<Option<int>>, k: nat)
    requires k <= |qs|
    ensures CorrectCount(qs, answers, k) == 0 <==> forall i :: 0 <= i < k ==> !IsCorrect(qs, answers, i)
    decreases k
  {
    if k > 0 {
      NoneCorrectIff(qs, answers, k - 1);
    }
  }

  /** Answering one question correctly never lowers the count. */
  lemma {:induction false} CorrectCountRecord(qs: seq<Question>, answers: seq<Option<int>>, i: nat, k: nat)
    requires i < |qs| && k <= |qs|
    ensures CorrectCount(qs, Record(answers, i, qs[i].correctAnswer), k) >= CorrectCount(qs, answers, k)
    decreases k
  {
    if k > 0 {
      CorrectCountRecord(qs, answers, i, k - 1);
    }
  }

  /** The loop of the score computation: one pass over the questions with a counter. */
  method CountCorrect(qs: seq<Question>, answers: seq<Option<int>>) returns (correct: nat)
    ensures correct == CorrectCount(qs, answers, |qs|)
  {
    correct := 0;
    var i := 0;
    while i < |qs|
      invariant 0 <= i <= |qs|
      invariant correct == CorrectCount(qs, answers, i)
    {
      if Answer(answers, i) == Some(qs[i].correctAnswer) {
        correct := correct + 1;
      }
      i := i + 1;
    }
  }

  /** `Math.round(correct / n * 100)`, a percentage. */
  function FinalScore(correct: nat, n: nat): (score: int)
    requires 0 < n && correct <= n
    ensures 0 <= score <= 100
    ensures correct == n ==> score == 100
    ensures correct == 0 ==> score == 0
  {
    PercentageFacts(correct, n);
    JsMath.RoundDiv(100 * correct, n)
  }

  lemma PercentageFacts(correct: nat, n: nat)
    requires 0 < n && correct <= n
    ensures 0 <= JsMath.RoundDiv(100 * correct, n) <= 100
    ensures correct == n ==> JsMath.RoundDiv(100 * correct, n) == 100
    ensures correct == 0 ==> JsMath.RoundDiv(100 * correct, n) == 0
  {
    var r := JsMath.RoundDiv(100 * correct, n);
    if r < 0 { JsMath.MulMonotone(r + 1, 0, 2 * n); }
    if r > 100 { JsMath.MulMonotone(101, r, 2 * n); }
    if correct == n { JsMath.RoundDivUnique(100 * n, n, 100); }
    if correct == 0 { JsMath.RoundDivUnique(0, n, 0); }
  }

  /** The result view's "answered X out of N" figure, `Math.round(score / 100 * N)`. */
  function AnsweredFigure(score: int, n: nat): int {
    JsMath.RoundDiv(score * n, 100)
  }

  /** For at most 100 questions the figure recovers the exact number of correct answers. */
  lemma AnsweredFigureExact(correct: nat, n: nat)
    requires 0 < n <= 100 && correct <= n
    ensures AnsweredFigure(FinalScore(correct, n), n) == correct
  {
    var s := FinalScore(correct, n);
    var t := s * n;
    // The score is within half a point of 100 * correct / n ...
    assert 2 * t - 200 * correct <= n by {
      assert (2 * n) * s <= 200 * correct + n;
    }
    assert 200 * correct - n < 2 * t by {
      assert 200 * correct + n < (2 * n) * s + 2 * n;
    }
    // ... so `s * n` is within 100 of `100 * correct`, and when n == 100 it is exact.
    if n == 100 {
      assert t == 100 * s;
      assert -100 < 200 * (s - correct) <= 100;
      assert s == correct;
    }
    assert -200 < 2 * t - 200 * correct < 200;
    assert 200 * correct <= 2 * t + 100 < 200 * correct + 200;
    JsMath.RoundDivUnique(t, 100, correct);
  }

  /** The assessment screen's state. */
  class Quiz {
    var questions: seq<Question>
    var currentQIndex: nat
    var answers: seq<Option<int>>
    var loading: bool
    var showResult: bool
    var score: int

    /** The current index stays on a question, and a shown score is a percentage. */
    ghost predicate Valid()
      reads this
    {
      && (|questions| > 0 ==> currentQIndex < |questions|)
      && (loading ==> questions == [] && currentQIndex == 0 && !showResult)
      && (showResult ==> 0 <= score <= 100)
    }

    constructor ()
      ensures Valid()
      ensures loading && !showResult && questions == [] && answers == []
      ensures currentQIndex == 0 && score == 0
    {
      questions := [];
      currentQIndex := 0;
      answers := [];
      loading := true;
      showResult := false;
      score := 0;
    }

    /** The generated questions arrive once the screen has opened. */
    method Load(qs: seq<Question>)
      requires Valid() && loading
      modifies this
      ensures Valid() && !loading && questions == qs
      ensures currentQIndex == 0 && answers == old(answers) && !showResult && score == old(score)
    {
      questions := qs;
      loading := false;
    }

    /** Whether the question view is on screen with a question to show. */
    predicate Answering()
      reads this
    {
      !loading && !showResult && |questions| > 0
    }

    /** "Next" is enabled only once the current question has an answer. */
    predicate NextEnabled()
      reads this
    {
      Answer(answers, currentQIndex).Some?
    }

    /** The forward button reads "Finish" exactly on the last question, where
        it scores the quiz, and "Next Question" everywhere else. */
    function NextLabel(): (l: string)
      reads this
      ensures l == "Finish" <==> currentQIndex + 1 == |questions|
      ensures l != "Finish" ==> l == "Next Question"
    {
      if currentQIndex == |questions| - 1 then "Finish" else "Next Question"
    }

    /** Choosing an option records it for the current question only. */
    method HandleAnswer(option: int)
      requires Valid() && Answering()
      modifies this
      ensures Valid() && Answering() && NextEnabled()
      ensures answers == Record(old(answers), currentQIndex, option)
      ensures Answer(answers, currentQIndex) == Some(option)
      ensures forall j: nat :: j != currentQIndex ==> Answer(answers, j) == Answer(old(answers), j)
      ensures questions == old(questions) && currentQIndex == old(currentQIndex)
      ensures score == old(score)
    {
      answers := Record(answers, currentQIndex, option);
    }

    /** Moves to the next question, or on the last one computes and shows the score. */
    method HandleNext()
      requires Valid() && Answering() && NextEnabled()
      modifies this
      ensures Valid()
      ensures questions == old(questions) && answers == old(answers)
      ensures old(currentQIndex) < |questions| - 1 ==>
        currentQIndex == old(currentQIndex) + 1 && !showResult && score == old(score)
      ensures old(currentQIndex) == |questions| - 1 ==>
        && currentQIndex == old(currentQIndex)
        && showResult
        && score == FinalScore(CorrectCount(questions, answers, |questions|), |questions|)
    {
      if currentQIndex < |questions| - 1 {
        currentQIndex := currentQIndex + 1;
      } else {
        CalculateScore();
      }
    }

    /** Counts the correct answers, stores the rounded percentage and shows the result. */
    method CalculateScore()
      requires Valid() && !loading && |questions| > 0
      modifies this
      ensures Valid() && showResult
      ensures questions == old(questions) && answers == old(answers)
      ensures score == FinalScore(CorrectCount(questions, answers, |questions|), |questions|)
      ensures currentQIndex == old(currentQIndex) && !loading
    {
      var correct := CountCorrect(questions, answers);
      score := FinalScore(correct, |questions|);
      showResult := true;
    }

    /** The result view's button reports exactly the computed score. */
    method HandleFinish() returns (reported: int)
      requires Valid() && showResult
      ensures reported == score && 0 <= reported <= 100
    {
      reported := score;
    }
  }
}
