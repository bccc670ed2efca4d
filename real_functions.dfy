/** The transcendental functions used by the alignment.

    Dafny's `real` has no built-in sine, hyperbolic tangent or exponential.
    The model therefore receives them as a record of total functions and
    assumes of them only the laws collected in `Lawful`.  Every lemma that
    needs one of these laws says so with `requires Lawful(e)`. */
module RealFunctions {

  datatype Elementary = Elementary(
    sin: real -> real,
    cos: real -> real,
    tanh: real -> real,
    exp: real -> real,
    log: real -> real,
    pi: real)

  /** The laws the model relies on: the values of sine and cosine at zero,
      the Pythagorean identity, the range of tanh, positivity of exp, and
      log as a left inverse of exp. */
  ghost predicate Lawful(e: Elementary) {
    && e.sin(0.0) == 0.0
    && e.cos(0.0) == 1.0
    && (forall x :: e.sin(x) * e.sin(x) + e.cos(x) * e.cos(x) == 1.0)
    && (forall x :: -1.0 < e.tanh(x) < 1.0)
    && (forall x :: e.exp(x) > 0.0)
    && e.exp(0.0) == 1.0
    && (forall x :: e.log(e.exp(x)) == x)
  }

  /** A piecewise-rational stand-in for exp: positive and injective. */
  function ToyExp(x: real): real {
    if x >= 0.0 then x + 1.0 else 1.0 / (1.0 - x)
  }

  /** The left inverse of `ToyExp`. */
  function ToyLog(y: real): real {
    if y >= 1.0 then y - 1.0 else if y > 0.0 then 1.0 - 1.0 / y else 0.0
  }

  lemma ToyLogExp(x: real)
    ensures ToyExp(x) > 0.0 && ToyLog(ToyExp(x)) == x
  {
    if x < 0.0 {
      var y := 1.0 / (1.0 - x);
      assert y * (1.0 - x) == 1.0;
      assert 0.0 < y < 1.0;
      assert 1.0 / y == 1.0 - x;
      assert ToyExp(x) == y;
    }
  }

  /** The laws are consistent: some record satisfies all of them. */
  lemma LawfulIsSatisfiable()
    ensures exists e :: Lawful(e)
  {
    var w := Elementary(x => 0.0, x => 1.0, x => 0.0, ToyExp, ToyLog, 3.141595);
    forall x: real ensures w.exp(x) > 0.0 && w.log(w.exp(x)) == x {
      ToyLogExp(x);
    }
    assert Lawful(w);
  }

  /** `g` applied `k` times to `x`. */
  function Iterate(g: real -> real, k: nat, x: real): real {
    if k == 0 then x else g(Iterate(g, k - 1, x))
  }
}
