/** The step cycle both breathing screens share: the index of the current step
    advances and wraps around after the last one, and the progress bar shows
    how far into the cycle it is. */
module BreathingCycle {

  /** `currentStep < steps.length - 1 ? currentStep + 1 : 0`. */
  function NextStep(step: nat, count: nat): (r: nat)
    requires step < count
    ensures r < count
    ensures r == (step + 1) % count
  {
    if step < count - 1 then step + 1 else 0
  }

  /** `((currentStep + 1) / steps.length) * 100`, in exact arithmetic. */
  function ProgressOf(step: nat, count: nat): (p: real)
    requires step < count
    ensures 0.0 < p <= 100.0
  {
    (step + 1) as real * 100.0 / count as real
  }

  /** The progress grows strictly with the step and is full exactly at the
      last step. */
  lemma ProgressShape(i: nat, j: nat, count: nat)
    requires i < j < count
    ensures ProgressOf(i, count) < ProgressOf(j, count)
    ensures ProgressOf(j, count) == 100.0 <==> j == count - 1
    ensures ProgressOf(i, count) < 100.0
  {
    var n := count as real;
    var pi, pj := ProgressOf(i, count), ProgressOf(j, count);
    assert pi * n == (i + 1) as real * 100.0;
    assert pj * n == (j + 1) as real * 100.0;
    assert (i + 1) as real < (j + 1) as real;
    assert (i + 1) as real * 100.0 < (j + 1) as real * 100.0;
    CancelPositive(pi, pj, n);
  }

  /** The bar is full at the last step and only there. */
  lemma ProgressFullAtLastStep(step: nat, count: nat)
    requires step < count
    ensures ProgressOf(step, count) == 100.0 <==> step == count - 1
  {
    if step < count - 1 {
      ProgressShape(step, count - 1, count);
    } else {
      assert ProgressOf(step, count) * count as real == count as real * 100.0;
    }
  }

  lemma CancelPositive(a: real, b: real, n: real)
    requires n > 0.0 && a * n < b * n
    ensures a < b
  {
  }
}
