/** The `MentalHealthQuiz` component: three questions answered 0 to 3 and a
    score that sums the answers. */
module MentalHealthQuiz {
  import opened Seqs

  const Questions: seq<string> := [
    "I feel happy most of the time.",
    "I have trouble sleeping.",
    "I feel stressed often."
  ]

  /** Each question answers with one of the select's values. */
  predicate IsAnswer(v: int)
  {
    0 <= v <= 3
  }

  /** Changing one answer moves the sum by the difference. */
  lemma {:induction false} SumUpdate(xs: seq<int>, i: nat, v: int)
    requires i < |xs|
    ensures Sum(xs[i := v]) == Sum(xs) - xs[i] + v
  {
    if i == 0 {
      assert xs[i := v][1..] == xs[1..];
    } else {
      SumUpdate(xs[1..], i - 1, v);
      assert xs[i := v][1..] == xs[1..][i - 1 := v];
    }
  }

  /** The state of the `MentalHealthQuiz` component. */
  class MentalHealthQuiz {
    var answers: seq<int>
    var submitted: bool

    /** One answer per question, each from the select. */
    predicate Valid()
      reads this
    {
      |answers| == |Questions| && forall i :: 0 <= i < |answers| ==> IsAnswer(answers[i])
    }

    constructor ()
      ensures Valid()
      ensures answers == [0, 0, 0] && !submitted
    {
      answers := [0, 0, 0];
      submitted := false;
    }

    /** `handleChange`: only the answer at `index` changes. */
    method HandleChange(index: nat, value: int)
      requires Valid() && index < |answers| && IsAnswer(value)
      modifies this
      ensures Valid()
      ensures answers == old(answers)[index := value] && submitted == old(submitted)
      ensures Score() == old(Score()) - old(answers)[index] + value
    {
      SumUpdate(answers, index, value);
      answers := answers[index := value];
    }

    /** `handleSubmit`: only the flag changes. */
    method HandleSubmit()
      modifies this
      ensures submitted && answers == old(answers)
    {
      submitted := true;
    }

    /** The score shown after submitting. */
    function Score(): (s: int)
      reads this
      requires Valid()
      ensures 0 <= s <= 9
    {
      SumBounds(answers, 0, 3);
      Sum(answers)
    }
  }
}
