/** The random choice every reply table uses:
    `list[Math.floor(Math.random() * list.length)]`. The draw of
    `Math.random()` is a parameter of the model. */
module Selection {

  /** A value `Math.random()` can return: a number in [0, 1). */
  type Draw = u: real | 0.0 <= u < 1.0

  /** `Math.floor(u * n)`: always a valid index of a list of `n` elements. */
  function PickIndex(n: nat, u: Draw): (i: nat)
    requires n > 0
    ensures i < n
    ensures i as real <= u * n as real < i as real + 1.0
  {
    assert u * n as real < n as real;
    (u * n as real).Floor
  }

  /** `list[Math.floor(u * list.length)]`: always an element of the list. */
  function Pick<T>(list: seq<T>, u: Draw): (r: T)
    requires |list| > 0
    ensures r in list
  {
    list[PickIndex(|list|, u)]
  }

  /** No element is out of reach: the draw `j / n` selects element `j`. */
  lemma PickReaches<T>(list: seq<T>, j: nat)
    requires j < |list|
    ensures j as real / |list| as real < 1.0
    ensures Pick(list, j as real / |list| as real) == list[j]
  {
    var n := |list| as real;
    var u := j as real / n;
    assert u * n == j as real;
  }
}
