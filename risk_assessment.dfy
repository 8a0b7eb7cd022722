/**
 * The risk questionnaire: six questions with three scored options each.
 * Choosing an option records its score and moves to the next question; on
 * the last question it submits the rounded mean score as the user's risk
 * tolerance. The submission reads the answers as they were before that
 * last choice was recorded.
 */
module RiskAssessment {
  import opened Common

  datatype Question = Question(id: string, scores: seq<int>)

  function Questions(): (qs: seq<Question>)
    ensures |qs| == 6
    ensures forall i :: 0 <= i < 6 ==> |qs[i].scores| == 3
  {
    [Question("time_horizon", [2, 5, 8]),
     Question("loss_reaction", [1, 4, 9]),
     Question("experience", [2, 5, 8]),
     Question("income_stability", [2, 5, 8]),
     Question("primary_goal", [2, 5, 9]),
     Question("volatility_comfort", [2, 5, 9])]
  }

  /** Every option scores between 1 and 9, and the six ids are distinct. */
  lemma QuestionsWellFormed()
    ensures forall i, k :: 0 <= i < 6 && 0 <= k < 3 ==> 1 <= Questions()[i].scores[k] <= 9
    ensures forall i, j :: 0 <= i < j < 6 ==> Questions()[i].id != Questions()[j].id
  {
  }

  function QuestionIds(): (ids: seq<string>)
    ensures |ids| == 6 && forall i :: 0 <= i < 6 ==> ids[i] == Questions()[i].id
  {
    seq(6, i requires 0 <= i < 6 => Questions()[i].id)
  }

  /** The answers recorded for the ids in `ids`, those not yet answered counting nothing. */
  function SumOver(ids: seq<string>, answers: map<string, int>): int {
    if ids == [] then 0
    else (if ids[0] in answers then answers[ids[0]] else 0) + SumOver(ids[1..], answers)
  }

  /** Object.values(answers) summed, for answers keyed by question ids. */
  function TotalScore(answers: map<string, int>): int {
    SumOver(QuestionIds(), answers)
  }

  /** Math.round(total / questions.length): the divisor is always 6. */
  function RiskScoreOf(answers: map<string, int>): (r: int)
    ensures r as real - 0.5 <= TotalScore(answers) as real / 6.0 < r as real + 0.5
  {
    Round(TotalScore(answers) as real / 6.0)
  }

  lemma {:induction false} SumOverBounds(ids: seq<string>, answers: map<string, int>, lo: int, hi: int)
    requires 0 <= lo <= hi
    requires forall k :: k in answers ==> lo <= answers[k] <= hi
    ensures 0 <= SumOver(ids, answers) <= hi * |ids|
    ensures (forall i :: 0 <= i < |ids| ==> ids[i] in answers) ==> lo * |ids| <= SumOver(ids, answers)
  {
    SumOverAtMost(ids, answers, hi);
    if forall i :: 0 <= i < |ids| ==> ids[i] in answers {
      SumOverAtLeast(ids, answers, lo);
    }
  }

  lemma {:induction false} SumOverAtMost(ids: seq<string>, answers: map<string, int>, hi: int)
    requires 0 <= hi && forall k :: k in answers ==> 0 <= answers[k] <= hi
    ensures 0 <= SumOver(ids, answers) <= hi * |ids|
  {
    if ids != [] {
      var rest := ids[1..];
      SumOverAtMost(rest, answers, hi);
      assert hi * |ids| == hi * |rest| + hi;
    }
  }

  lemma {:induction false} SumOverAtLeast(ids: seq<string>, answers: map<string, int>, lo: int)
    requires forall k :: k in answers ==> lo <= answers[k]
    requires forall i :: 0 <= i < |ids| ==> ids[i] in answers
    ensures lo * |ids| <= SumOver(ids, answers)
  {
    if ids != [] {
      var rest := ids[1..];
      assert forall i :: 0 <= i < |rest| ==> rest[i] == ids[i + 1];
      SumOverAtLeast(rest, answers, lo);
      assert lo * |ids| == lo * |rest| + lo;
    }
  }

  /** With every recorded score in 1..9 the result is at most 9, and at least 1 once all six are answered. */
  lemma RiskScoreRange(answers: map<string, int>)
    requires forall k :: k in answers ==> 1 <= answers[k] <= 9
    ensures 0 <= RiskScoreOf(answers) <= 9
    ensures (forall i :: 0 <= i < 6 ==> QuestionIds()[i] in answers) ==> 1 <= RiskScoreOf(answers)
  {
    SumOverBounds(QuestionIds(), answers, 1, 9);
    RoundMonotone(TotalScore(answers) as real / 6.0, 9.0);
    RoundOfInt(9);
    RoundNonNegative(TotalScore(answers) as real / 6.0);
    if forall i :: 0 <= i < 6 ==> QuestionIds()[i] in answers {
      RoundMonotone(1.0, TotalScore(answers) as real / 6.0);
      RoundOfInt(1);
    }
  }

  /** The answers a questionnaire may hold: only question ids, only option scores. */
  predicate WellFormedAnswers(answers: map<string, int>) {
    forall k :: k in answers ==>
      exists i, o :: 0 <= i < 6 && 0 <= o < 3 && k == Questions()[i].id && answers[k] == Questions()[i].scores[o]
  }

  class Questionnaire {
    var currentQuestion: nat
    var answers: map<string, int>
    /** The risk tolerances sent to the server, in order. */
    var submitted: seq<int>

    predicate Valid()
      reads this
    {
      currentQuestion < 6 && WellFormedAnswers(answers)
    }

    constructor()
      ensures Valid() && currentQuestion == 0 && answers == map[] && submitted == []
    {
      currentQuestion := 0;
      answers := map[];
      submitted := [];
    }

    /** The progress bar: (current + 1) / 6 * 100. */
    function Progress(): (p: real)
      reads this
      requires Valid()
      ensures 0.0 < p <= 100.0
      ensures currentQuestion == 5 <==> p == 100.0
    {
      ((currentQuestion + 1) as real / 6.0) * 100.0
    }

    /** Whether the current question has a recorded answer. */
    predicate IsAnswered()
      reads this
      requires Valid()
    {
      Questions()[currentQuestion].id in answers
    }

    /**
     * handleAnswer, as the option button calls it: records the option's
     * score under the current question's id, then either moves on or, on
     * the last question, submits the score of the answers recorded BEFORE
     * this choice.
     */
    method HandleAnswer(option: nat)
      requires Valid() && option < 3
      modifies this
      ensures Valid()
      ensures answers == old(answers)[Questions()[old(currentQuestion)].id := Questions()[old(currentQuestion)].scores[option]]
      ensures old(currentQuestion) < 5 ==> currentQuestion == old(currentQuestion) + 1 && submitted == old(submitted)
      ensures old(currentQuestion) == 5 ==>
        currentQuestion == old(currentQuestion) && submitted == old(submitted) + [RiskScoreOf(old(answers))]
    {
      var q := Questions()[currentQuestion];
      var staleAnswers := answers;
      answers := answers[q.id := q.scores[option]];
      if currentQuestion < 5 {
        currentQuestion := currentQuestion + 1;
      } else {
        submitted := submitted + [RiskScoreOf(staleAnswers)];
      }
    }

    /** The Previous button: one question back, never below the first. */
    method Previous()
      requires Valid()
      modifies this
      ensures Valid()
      ensures currentQuestion == if old(currentQuestion) == 0 then 0 else old(currentQuestion) - 1
      ensures answers == old(answers) && submitted == old(submitted)
    {
      currentQuestion := if currentQuestion == 0 then 0 else currentQuestion - 1;
    }
  }

  /** The score the final choice evidently means to submit: the answers including that choice. */
  function IntendedRiskScore(answers: map<string, int>, option: nat): int
    requires option < 3
  {
    RiskScoreOf(answers[Questions()[5].id := Questions()[5].scores[option]])
  }

  /** Once the first five are answered, the intended score counts all six answers and lies in 1..9. */
  lemma IntendedRiskScoreInRange(answers: map<string, int>, option: nat)
    requires option < 3 && WellFormedAnswers(answers)
    requires forall i :: 0 <= i < 5 ==> QuestionIds()[i] in answers
    ensures 1 <= IntendedRiskScore(answers, option) <= 9
  {
    var full := answers[Questions()[5].id := Questions()[5].scores[option]];
    QuestionsWellFormed();
    forall k | k in full
      ensures 1 <= full[k] <= 9
    {
      if k != Questions()[5].id {
        var i, o :| 0 <= i < 6 && 0 <= o < 3 && k == Questions()[i].id && answers[k] == Questions()[i].scores[o];
      }
    }
    RiskScoreRange(full);
  }

  /** The answers state when the last question is clicked, after the top option of the first five. */
  const TopFiveAnswers: map<string, int> := map["time_horizon" := 8, "loss_reaction" := 9, "experience" := 8,
                                                "income_stability" := 8, "primary_goal" := 9]

  /** A recorded answer, or nothing. */
  function Recorded(answers: map<string, int>, id: string): int {
    if id in answers then answers[id] else 0
  }

  /** The total spelled out over the six ids. */
  lemma TotalScoreOfSix(answers: map<string, int>)
    ensures var ids := QuestionIds();
      TotalScore(answers)
      == Recorded(answers, ids[0]) + Recorded(answers, ids[1]) + Recorded(answers, ids[2])
         + Recorded(answers, ids[3]) + Recorded(answers, ids[4]) + Recorded(answers, ids[5])
  {
    var ids := QuestionIds();
    assert ids[0..] == ids && ids[6..] == [];
    SumOverStep(ids, answers, 0);
    SumOverStep(ids, answers, 1);
    SumOverStep(ids, answers, 2);
    SumOverStep(ids, answers, 3);
    SumOverStep(ids, answers, 4);
    SumOverStep(ids, answers, 5);
  }

  lemma SumOverStep(ids: seq<string>, answers: map<string, int>, j: nat)
    requires j < |ids|
    ensures SumOver(ids[j..], answers) == Recorded(answers, ids[j]) + SumOver(ids[j + 1..], answers)
  {
    assert ids[j..][1..] == ids[j + 1..];
  }

  lemma TopFiveTotal()
    ensures TotalScore(TopFiveAnswers) == 42
  {
    TotalScoreOfSix(TopFiveAnswers);
    assert QuestionIds()[5] == "volatility_comfort";
  }

  lemma TopSixTotal()
    ensures TotalScore(TopFiveAnswers["volatility_comfort" := 9]) == 51
  {
    TotalScoreOfSix(TopFiveAnswers["volatility_comfort" := 9]);
  }

  /** Answering the last question with the top score in every question submits 7, not 9. */
  lemma LastAnswerDropped()
    ensures RiskScoreOf(TopFiveAnswers) == 7 && IntendedRiskScore(TopFiveAnswers, 2) == 9
  {
    TopFiveTotal();
    TopSixTotal();
    assert Questions()[5].id == "volatility_comfort" && Questions()[5].scores[2] == 9;
  }
}
