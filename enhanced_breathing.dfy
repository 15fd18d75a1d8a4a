/** The guided breathing screen of frontend/src/components/EnhancedBreathing.js:
    a table of exercises and a once-a-second countdown that walks through the
    steps of the running exercise, round and round. */
module EnhancedBreathing {
  import opened Text
  import opened Wrappers
  import opened BreathingCycle

  datatype Step = Step(action: string, duration: int, instruction: string, emoji: string)

  /** An exercise; the descriptive fields shown on its card are not modelled. */
  datatype Exercise = Exercise(id: int, title: string, steps: seq<Step>, color: string)

  const Exercises: seq<Exercise> := [
    Exercise(1, "4-7-8 Breathing", [
      Step("Breathe In", 4, "Inhale slowly through your nose", "👃"),
      Step("Hold", 7, "Hold your breath comfortably", "⏳"),
      Step("Breathe Out", 8, "Exhale completely through mouth", "😮‍💨")], "primary"),
    Exercise(2, "Box Breathing", [
      Step("Breathe In", 4, "Inhale deeply and slowly", "🌬️"),
      Step("Hold", 4, "Hold breath gently", "⏸️"),
      Step("Breathe Out", 4, "Exhale completely", "💨"),
      Step("Hold", 4, "Hold with empty lungs", "🔄")], "info"),
    Exercise(3, "Deep Belly Breathing", [
      Step("Breathe In", 5, "Inhale deeply into your belly", "🫁"),
      Step("Breathe Out", 5, "Exhale slowly and completely", "🌪️")], "success"),
    Exercise(4, "Alternate Nostril Breathing", [
      Step("Close Right Nostril", 4, "Inhale through left nostril", "👈"),
      Step("Switch", 4, "Hold breath briefly", "🔄"),
      Step("Close Left Nostril", 4, "Exhale through right nostril", "👉"),
      Step("Inhale Right", 4, "Inhale through right nostril", "👉"),
      Step("Switch", 4, "Hold breath briefly", "🔄"),
      Step("Exhale Left", 4, "Exhale through left nostril", "👈")], "warning")
  ]

  /** At least two steps, each lasting a positive number of seconds. */
  predicate WellFormed(e: Exercise)
  {
    |e.steps| >= 2 && forall i :: 0 <= i < |e.steps| ==> e.steps[i].duration > 0
  }

  lemma ExercisesWellFormed()
    ensures forall k :: 0 <= k < |Exercises| ==> WellFormed(Exercises[k])
  {
    forall k | 0 <= k < |Exercises| ensures WellFormed(Exercises[k]) {
      assert k in {0, 1, 2, 3};
    }
  }

  /** The circle's size for a step: "In" (case-sensitive) expands it, then
      "Out" shrinks it, anything else keeps it neutral. */
  function CircleSizeOf(action: string): (size: int)
    ensures size == 200 <==> Contains(action, "In")
    ensures size == 100 <==> !Contains(action, "In") && Contains(action, "Out")
    ensures size in {100, 150, 200}
  {
    if Contains(action, "In") then 200
    else if Contains(action, "Out") then 100
    else 150
  }

  /** The test is case-sensitive: "Breathe in" (as the other breathing screen
      spells it) keeps the neutral size, while "Inhale Right" expands. */
  lemma CircleSizeIsCaseSensitive()
    ensures CircleSizeOf("Breathe in") == 150
    ensures CircleSizeOf("Inhale Right") == 200
    ensures CircleSizeOf("Breathe Out") == 100
  {
    NotContainsChar("Breathe in", "In", 0);
    NotContainsChar("Breathe in", "Out", 0);
    assert MatchesAt("Inhale Right", "In", 0);
    NotContainsChar("Breathe Out", "In", 0);
    assert MatchesAt("Breathe Out", "Out", 8);
  }

  /** The state of the `EnhancedBreathing` component. */
  class EnhancedBreathing {
    var activeExercise: Option<Exercise>
    var isRunning: bool
    var currentStep: nat
    var timeLeft: int

    /** The step index always points into the active exercise. */
    predicate Valid()
      reads this
    {
      (activeExercise.Some? ==> WellFormed(activeExercise.value) && currentStep < |activeExercise.value.steps|) &&
      (activeExercise.None? ==> !isRunning)
    }

    constructor ()
      ensures Valid()
      ensures activeExercise == None && !isRunning && currentStep == 0 && timeLeft == 0
    {
      activeExercise := None;
      isRunning := false;
      currentStep := 0;
      timeLeft := 0;
    }

    /** The effect that runs whenever the step, the exercise or the running
        flag changes: while running, the countdown restarts at the current
        step's duration. */
    method StepEffect()
      requires Valid()
      modifies this
      ensures Valid()
      ensures isRunning ==> timeLeft == activeExercise.value.steps[currentStep].duration
      ensures !isRunning ==> timeLeft == old(timeLeft)
      ensures activeExercise == old(activeExercise) && isRunning == old(isRunning) && currentStep == old(currentStep)
    {
      if isRunning {
        timeLeft := activeExercise.value.steps[currentStep].duration;
      }
    }

    /** One second of the interval timer: above 1 the countdown decreases;
        at 1 or below the step advances (wrapping after the last) and the
        countdown is set back to the finished step's duration. */
    method Tick()
      requires Valid() && isRunning
      modifies this
      ensures Valid()
      ensures activeExercise == old(activeExercise) && isRunning
      ensures old(timeLeft) > 1 ==> timeLeft == old(timeLeft) - 1 && currentStep == old(currentStep)
      ensures old(timeLeft) <= 1 ==>
                currentStep == NextStep(old(currentStep), |activeExercise.value.steps|) &&
                timeLeft == activeExercise.value.steps[old(currentStep)].duration
    {
      var steps := activeExercise.value.steps;
      if timeLeft <= 1 {
        var finished := currentStep;
        currentStep := NextStep(currentStep, |steps|);
        timeLeft := steps[finished].duration;
      } else {
        timeLeft := timeLeft - 1;
      }
    }

    /** `startExercise`: the exercise becomes active from its first step. */
    method StartExercise(exercise: Exercise)
      requires Valid() && WellFormed(exercise)
      modifies this
      ensures Valid()
      ensures activeExercise == Some(exercise) && currentStep == 0 && isRunning
      ensures timeLeft == old(timeLeft)
    {
      activeExercise := Some(exercise);
      currentStep := 0;
      isRunning := true;
    }

    /** `stopExercise`: the exercise stays selected but is back at its first
        step with a cleared countdown. */
    method StopExercise()
      requires Valid()
      modifies this
      ensures Valid()
      ensures !isRunning && currentStep == 0 && timeLeft == 0
      ensures activeExercise == old(activeExercise)
    {
      isRunning := false;
      currentStep := 0;
      timeLeft := 0;
    }

    /** `getProgress`: 0 with no exercise, otherwise the share of the cycle
        reached, counting the current step. */
    function Progress(): (p: real)
      requires Valid()
      reads this
      ensures activeExercise.None? ==> p == 0.0
      ensures activeExercise.Some? ==> 0.0 < p <= 100.0
      ensures activeExercise.Some? ==> (p == 100.0 <==> currentStep == |activeExercise.value.steps| - 1)
    {
      if activeExercise.None? then 0.0
      else
        var n := |activeExercise.value.steps|;
        ProgressFullAtLastStep(currentStep, n);
        ProgressOf(currentStep, n)
    }

    /** `getCircleSize`. */
    function CircleSize(): (size: int)
      requires Valid()
      reads this
      ensures activeExercise.None? ==> size == 150
      ensures activeExercise.Some? ==> size == CircleSizeOf(activeExercise.value.steps[currentStep].action)
    {
      if activeExercise.None? then 150 else CircleSizeOf(activeExercise.value.steps[currentStep].action)
    }
  }
}
