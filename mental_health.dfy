/**
 * The daily mood quiz: five questions answered one at a time, each answer a
 * value from 1 to 5, finishing with the mean of the answers as the day's
 * mood score, which a five-band classifier turns into an emoji and a label.
 * Scores are exact rationals here.
 */
module MentalHealth {

  import opened Wrappers

  /** `moodQuestions.length`. */
  const QuestionCount := 5

  /** The option values of each question, in display order. */
  const OptionValues: seq<seq<int>> := [
    [1, 2, 3, 4, 5],
    [1, 2, 3, 4, 5],
    [1, 2, 3, 4, 5],
    [1, 2, 3, 4, 5],
    [1, 2, 3, 4, 5]
  ]

  predicate InScale(v: int) {
    1 <= v <= 5
  }

  /** There is one option list per question, and every option value is on the 1..5 scale. */
  lemma OptionValuesOnScale(q: nat, v: int)
    requires q < |OptionValues| && v in OptionValues[q]
    ensures |OptionValues| == QuestionCount && InScale(v)
  {
  }

  /** `reduce((sum, score) => sum + score, 0)`. */
  function Sum(xs: seq<int>): int {
    if xs == [] then 0 else Sum(xs[..|xs| - 1]) + xs[|xs| - 1]
  }

  /** The arithmetic mean, as the quiz computes today's score. */
  function Mean(xs: seq<int>): (r: real)
    requires xs != []
    ensures r * |xs| as real == Sum(xs) as real
  {
    Sum(xs) as real / |xs| as real
  }

  /** A sum of values on the scale lies between `|xs|` and `5 * |xs|`. */
  lemma {:induction false} SumBounds(xs: seq<int>)
    requires forall i :: 0 <= i < |xs| ==> InScale(xs[i])
    ensures |xs| <= Sum(xs) <= 5 * |xs|
  {
    if xs != [] {
      SumBounds(xs[..|xs| - 1]);
    }
  }

  /** The mean of answers on the scale is itself on the scale. */
  lemma MeanOnScale(xs: seq<int>)
    requires xs != [] && forall i :: 0 <= i < |xs| ==> InScale(xs[i])
    ensures 1.0 <= Mean(xs) <= 5.0
  {
    SumBounds(xs);
    QuotientOnScale(Sum(xs), |xs|);
  }

  lemma QuotientOnScale(total: int, n: int)
    requires 0 < n <= total <= 5 * n
    ensures 1.0 <= total as real / n as real <= 5.0
  {
    var q := total as real / n as real;
    assert q * n as real == total as real;
    assert n as real <= total as real <= 5.0 * n as real;
    if q > 5.0 {
      assert q * n as real > 5.0 * n as real;
    }
  }

  /** `getMoodEmoji`: thresholds 4.5, 3.5, 2.5, 1.5, first match wins. */
  function MoodEmoji(score: real): (r: string)
    ensures r == BandEmojis[MoodBand(score)]
  {
    if score >= 4.5 then "🌟"
    else if score >= 3.5 then "😊"
    else if score >= 2.5 then "😐"
    else if score >= 1.5 then "😕"
    else "😞"
  }

  /** `getMoodLabel`: the same thresholds, first match wins. */
  function MoodLabel(score: real): (r: string)
    ensures r == BandLabels[MoodBand(score)]
  {
    if score >= 4.5 then "Excellent"
    else if score >= 3.5 then "Good"
    else if score >= 2.5 then "Okay"
    else if score >= 1.5 then "Low"
    else "Very Low"
  }

  /** Reference definition: how many of the four thresholds the score reaches. */
  function MoodBand(score: real): (b: nat)
    ensures b < |BandEmojis| && b < |BandLabels|
  {
    (if score >= 1.5 then 1 else 0) + (if score >= 2.5 then 1 else 0)
    + (if score >= 3.5 then 1 else 0) + (if score >= 4.5 then 1 else 0)
  }

  /** The emojis and labels, lowest band first. */
  const BandEmojis: seq<string> := ["😞", "😕", "😐", "😊", "🌟"]
  const BandLabels: seq<string> := ["Very Low", "Low", "Okay", "Good", "Excellent"]

  /** Emoji and label always agree: two scores share an emoji exactly when they share a label. */
  lemma EmojiAndLabelAgree(s1: real, s2: real)
    ensures MoodEmoji(s1) == MoodEmoji(s2) <==> MoodLabel(s1) == MoodLabel(s2)
    ensures MoodEmoji(s1) == MoodEmoji(s2) <==> MoodBand(s1) == MoodBand(s2)
  {
    var b1, b2 := MoodBand(s1), MoodBand(s2);
    if b1 != b2 {
      assert BandEmojis[b1] != BandEmojis[b2] by {
        assert BandEmojis[0][0] == '😞' && BandEmojis[1][0] == '😕' && BandEmojis[2][0] == '😐';
        assert BandEmojis[3][0] == '😊' && BandEmojis[4][0] == '🌟';
      }
      assert BandLabels[b1] != BandLabels[b2] by {
        assert BandLabels[0][0] == 'V' && BandLabels[1][0] == 'L' && BandLabels[2][0] == 'O';
        assert BandLabels[3][0] == 'G' && BandLabels[4][0] == 'E';
      }
    }
  }

  /** A higher score never lands in a lower band. */
  lemma BandMonotone(s1: real, s2: real)
    requires s1 <= s2
    ensures MoodBand(s1) <= MoodBand(s2)
  {
  }

  /** The quiz's state. */
  class MoodQuiz {
    var isQuizActive: bool
    var currentQuestion: int
    var answers: seq<int>
    var quizCompleted: bool
    var todayMood: Option<real>

    /**
     * The question index stays within the question list; while a round is
     * running there is one answer per earlier question and no completed
     * mark; a completed round holds five answers on the scale whose mean
     * is today's score, and any score is on the scale.
     */
    ghost predicate Valid()
      reads this
    {
      && 0 <= currentQuestion <= QuestionCount - 1
      && (forall i :: 0 <= i < |answers| ==> InScale(answers[i]))
      && (isQuizActive ==> |answers| == currentQuestion && !quizCompleted)
      && (quizCompleted ==> |answers| == QuestionCount && todayMood == Some(Mean(answers)))
      && (todayMood.Some? ==> 1.0 <= todayMood.value <= 5.0)
    }

    constructor ()
      ensures Valid()
      ensures !isQuizActive && currentQuestion == 0 && answers == [] && !quizCompleted && todayMood == None
    {
      isQuizActive := false;
      currentQuestion := 0;
      answers := [];
      quizCompleted := false;
      todayMood := None;
    }

    /** `startQuiz`: a fresh round; today's score is kept until the round ends. */
    method StartQuiz()
      requires Valid()
      modifies this
      ensures Valid()
      ensures isQuizActive && currentQuestion == 0 && answers == [] && !quizCompleted
      ensures todayMood == old(todayMood)
    {
      isQuizActive := true;
      currentQuestion := 0;
      answers := [];
      quizCompleted := false;
    }

    /**
     * `handleAnswer`, from one of the current question's option buttons
     * (rendered only while a round runs): the value is appended; before the
     * last question the index advances, at the last the mean of all answers
     * becomes today's score and the round ends completed.
     */
    method HandleAnswer(value: int)
      requires Valid() && isQuizActive && value in OptionValues[currentQuestion]
      modifies this
      ensures Valid()
      ensures answers == old(answers) + [value]
      ensures old(currentQuestion) < QuestionCount - 1 ==>
        && currentQuestion == old(currentQuestion) + 1 && isQuizActive
        && !quizCompleted && todayMood == old(todayMood)
      ensures old(currentQuestion) >= QuestionCount - 1 ==>
        && currentQuestion == old(currentQuestion) && !isQuizActive
        && quizCompleted && todayMood == Some(Mean(answers))
    {
      OptionValuesOnScale(currentQuestion, value);
      answers := answers + [value];
      if currentQuestion < QuestionCount - 1 {
        currentQuestion := currentQuestion + 1;
      } else {
        MeanOnScale(answers);
        todayMood := Some(Mean(answers));
        quizCompleted := true;
        isQuizActive := false;
      }
    }
  }

  /**
   * A round answered with the given option indices finishes after exactly
   * five answers, with the mean of the chosen values as today's score.
   */
  method CompleteRound(choices: seq<nat>) returns (mood: Option<real>, recorded: seq<int>)
    requires |choices| == QuestionCount && forall i :: 0 <= i < |choices| ==> choices[i] < 5
    ensures |recorded| == QuestionCount
    ensures forall i :: 0 <= i < |recorded| ==> recorded[i] == OptionValues[i][choices[i]]
    ensures mood == Some(Mean(recorded)) && 1.0 <= Mean(recorded) <= 5.0
  {
    var quiz := new MoodQuiz();
    quiz.StartQuiz();
    var k := 0;
    while k < QuestionCount
      invariant 0 <= k <= QuestionCount
      invariant quiz.Valid()
      invariant |quiz.answers| == k
      invariant forall i :: 0 <= i < k ==> quiz.answers[i] == OptionValues[i][choices[i]]
      invariant k < QuestionCount ==> quiz.isQuizActive && quiz.currentQuestion == k
      invariant k == QuestionCount ==> quiz.quizCompleted
    {
      quiz.HandleAnswer(OptionValues[k][choices[k]]);
      k := k + 1;
    }
    mood, recorded := quiz.todayMood, quiz.answers;
  }
}
