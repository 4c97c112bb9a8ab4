/** Random draws, supplied by the caller.

    Python's `random` module is replaced by the values it would have produced:
    `random.random()` becomes a unit draw `u` with `0 <= u < 1`, from which
    `random.uniform` is computed as CPython does, and `random.choice` is
    modelled as the index `floor(u * n)`, which reaches every index;
    `random.randint(a, b)` becomes an integer the caller promises to lie in
    `[a, b]`; `random.shuffle` becomes a rearrangement of the list. */
module Draws {

  datatype Option<T> = None | Some(value: T)

  /** A value of `random.random()`. */
  predicate IsUnit(u: real) {
    0.0 <= u < 1.0
  }

  function Min(a: real, b: real): real {
    if a <= b then a else b
  }

  function Max(a: real, b: real): real {
    if a >= b then a else b
  }

  function Abs(x: real): real {
    if x < 0.0 then -x else x
  }

  /** `x` lies between `a` and `b`, whichever of the two is the smaller. */
  predicate Between(a: real, b: real, x: real) {
    Min(a, b) <= x <= Max(a, b)
  }

  /** `random.uniform(a, b)`, computed as `a + (b - a) * random()`. It never
      fails: when `b < a` the value lies in `[b, a]`. */
  function Uniform(a: real, b: real, u: real): (r: real)
    requires IsUnit(u)
    ensures Between(a, b, r)
    ensures a <= b ==> a <= r <= b
    ensures a < b ==> r < b
  {
    ScaledUnit(b - a, u);
    a + Scale(b - a, u)
  }

  /** A width `w` scaled by a unit draw. */
  function Scale(w: real, u: real): real {
    w * u
  }

  /** A width scaled by a unit draw lies between 0 and the width, and short
      of the width when the width is not 0. */
  lemma ScaledUnit(w: real, u: real)
    requires IsUnit(u)
    ensures Between(0.0, w, Scale(w, u))
    ensures w > 0.0 ==> Scale(w, u) < w
    ensures w < 0.0 ==> w < Scale(w, u)
    ensures w < 0.0 && u > 0.0 ==> Scale(w, u) < 0.0
  {
    ScaledFraction(w, u);
    if w < 0.0 && u > 0.0 {
      PositiveProduct(-w, u);
      assert (-w) * u == -(w * u);
    }
    if w > 0.0 {
      PositiveProduct(w, 1.0 - u);
      assert w * (1.0 - u) == w - w * u;
    } else if w < 0.0 {
      PositiveProduct(-w, 1.0 - u);
      assert (-w) * (1.0 - u) == w * u - w;
    }
  }

  /** A width scaled by a fraction in `[0, 1]` lies between 0 and the width. */
  lemma ScaledFraction(w: real, f: real)
    requires 0.0 <= f <= 1.0
    ensures Between(0.0, w, Scale(w, f))
  {
    if w >= 0.0 {
      NonNegativeProduct(w, f);
      NonNegativeProduct(w, 1.0 - f);
      assert w * (1.0 - f) == w - w * f;
    } else {
      NonNegativeProduct(-w, f);
      NonNegativeProduct(-w, 1.0 - f);
      assert (-w) * (1.0 - f) == w * f - w;
      assert (-w) * f == -(w * f);
    }
  }

  lemma NonNegativeProduct(x: real, y: real)
    requires x >= 0.0 && y >= 0.0
    ensures x * y >= 0.0
  {
  }

  lemma PositiveProduct(x: real, y: real)
    requires x > 0.0 && y > 0.0
    ensures x * y > 0.0
  {
  }

  /** The index `random.choice` picks from a list of length `n`. */
  function ChoiceIndex(n: nat, u: real): (i: nat)
    requires n > 0 && IsUnit(u)
    ensures i < n
  {
    ScaledUnit(n as real, u);
    Scale(n as real, u).Floor
  }

  /** `shuffled` holds the elements of `s` rearranged, as `random.shuffle`
      leaves a list. */
  predicate IsShuffleOf<T(==)>(shuffled: seq<T>, s: seq<T>) {
    multiset(shuffled) == multiset(s)
  }

  /** Python's `int(x)` on a float: truncation toward zero. */
  function Trunc(x: real): (n: int)
    ensures Abs(n as real) <= Abs(x) < Abs(n as real) + 1.0
    ensures x >= 0.0 ==> n >= 0
    ensures x <= 0.0 ==> n <= 0
  {
    if x >= 0.0 then x.Floor else -((-x).Floor)
  }
}
