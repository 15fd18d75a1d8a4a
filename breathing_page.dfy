/** The breathing page of frontend/src/pages/Breathing.js: the same step
    cycle as the guided screen, driven by one timeout per step instead of a
    countdown. */
module BreathingPage {
  import opened Wrappers
  import opened BreathingCycle

  datatype Step = Step(action: string, duration: int, instruction: string)

  /** An exercise; the descriptive fields and the video id are not modelled. */
  datatype Exercise = Exercise(id: int, title: string, steps: seq<Step>)

  const Exercises: seq<Exercise> := [
    Exercise(1, "4-7-8 Breathing", [
      Step("Breathe in", 4, "Inhale slowly through your nose"),
      Step("Hold", 7, "Hold your breath"),
      Step("Breathe out", 8, "Exhale slowly through your mouth")]),
    Exercise(2, "Box Breathing", [
      Step("Breathe in", 4, "Inhale slowly"),
      Step("Hold", 4, "Hold your breath"),
      Step("Breathe out", 4, "Exhale completely"),
      Step("Hold", 4, "Hold empty")]),
    Exercise(3, "Deep Belly Breathing", [
      Step("Breathe in", 5, "Inhale deeply into your belly"),
      Step("Breathe out", 5, "Exhale slowly and completely")])
  ]

  predicate WellFormed(e: Exercise)
  {
    |e.steps| >= 2 && forall i :: 0 <= i < |e.steps| ==> e.steps[i].duration > 0
  }

  /** Every exercise has at least two steps, each of positive length. */
  lemma ExercisesWellFormed()
    ensures forall k :: 0 <= k < |Exercises| ==> WellFormed(Exercises[k])
  {
    forall k | 0 <= k < |Exercises| ensures WellFormed(Exercises[k]) {
      assert k in {0, 1, 2};
    }
  }

  /** The state of the `Breathing` page. */
  class BreathingPage {
    var activeExercise: Option<Exercise>
    var isRunning: bool
    var currentStep: nat

    predicate Valid()
      reads this
    {
      (activeExercise.Some? ==> WellFormed(activeExercise.value) && currentStep < |activeExercise.value.steps|) &&
      (activeExercise.None? ==> !isRunning)
    }

    constructor ()
      ensures Valid()
      ensures activeExercise == None && !isRunning && currentStep == 0
    {
      activeExercise := None;
      isRunning := false;
      currentStep := 0;
    }

    /** How long the pending timeout waits, in milliseconds. */
    function Delay(): (ms: int)
      requires Valid() && isRunning
      reads this
      ensures ms > 0
    {
      activeExercise.value.steps[currentStep].duration * 1000
    }

    /** The timeout firing after the step's duration: the next step, or the
        first one after the last. */
    method Timeout()
      requires Valid() && isRunning
      modifies this
      ensures Valid()
      ensures activeExercise == old(activeExercise) && isRunning
      ensures currentStep == NextStep(old(currentStep), |activeExercise.value.steps|)
    {
      currentStep := NextStep(currentStep, |activeExercise.value.steps|);
    }

    method StartExercise(exercise: Exercise)
      requires Valid() && WellFormed(exercise)
      modifies this
      ensures Valid()
      ensures activeExercise == Some(exercise) && currentStep == 0 && isRunning
    {
      activeExercise := Some(exercise);
      currentStep := 0;
      isRunning := true;
    }

    method StopExercise()
      requires Valid()
      modifies this
      ensures Valid()
      ensures !isRunning && currentStep == 0 && activeExercise == old(activeExercise)
    {
      isRunning := false;
      currentStep := 0;
    }

    /** `getProgress`: 0 with no exercise, full exactly at the last step. */
    function Progress(): (p: real)
      requires Valid()
      reads this
      ensures activeExercise.None? ==> p == 0.0
      ensures activeExercise.Some? ==> 0.0 < p <= 100.0
      ensures activeExercise.Some? ==> (p == 100.0 <==> currentStep == |activeExercise.value.steps| - 1)
    {
      if activeExercise.None? then 0.0
      else
        var n := |activeExercise.value.steps|;
        ProgressFullAtLastStep(currentStep, n);
        ProgressOf(currentStep, n)
    }
  }
}
