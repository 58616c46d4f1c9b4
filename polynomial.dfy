/** Polynomials over the reals, given by their coefficients in ascending
    order of power: [a0, a1, ..., an] stands for a0 + a1 t + ... + an t^n. */
module Polynomial {

  /** The value of the polynomial `a` at `t` (Horner's rule). */
  function Eval(a: seq<real>, t: real): real
    decreases |a|
  {
    if a == [] then 0.0 else a[0] + t * Eval(a[1..], t)
  }

  /** The coefficients of the derivative: the term a[i] t^i becomes i a[i] t^(i-1). */
  function Derivative(a: seq<real>): seq<real>
  {
    if a == [] then [] else seq(|a| - 1, i requires 0 <= i < |a| - 1 => (i + 1) as real * a[i + 1])
  }

  /** x raised to the natural power n. */
  function Pow(x: real, n: nat): real
  {
    if n == 0 then 1.0 else x * Pow(x, n - 1)
  }

  /** Powers add up under multiplication. */
  lemma {:induction false} PowAdd(x: real, m: nat, n: nat)
    ensures Pow(x, m + n) == Pow(x, m) * Pow(x, n)
  {
    if m > 0 {
      PowAdd(x, m - 1, n);
      assert Pow(x, m + n) == x * Pow(x, m - 1 + n);
    }
  }

  /** Every power of a non-zero number is non-zero. */
  lemma {:induction false} PowNonzero(x: real, n: nat)
    requires x != 0.0
    ensures Pow(x, n) != 0.0
  {
    if n > 0 {
      PowNonzero(x, n - 1);
    }
  }

  /** A positive power is zero exactly when its base is. */
  lemma {:induction false} PowZeroIff(x: real, n: nat)
    requires n > 0
    ensures Pow(x, n) == 0.0 <==> x == 0.0
  {
    if n > 1 {
      PowZeroIff(x, n - 1);
    }
  }

  /** The first powers, by repeated multiplication. */
  lemma SmallPowers(t: real)
    ensures Pow(t, 1) == t
    ensures Pow(t, 2) == t * t
    ensures Pow(t, 3) == Pow(t, 2) * t
    ensures Pow(t, 4) == Pow(t, 3) * t
    ensures Pow(t, 5) == Pow(t, 4) * t
  {
  }

  /** A polynomial of degree at most five, written out term by term. */
  lemma QuinticValue(a: seq<real>, t: real)
    requires |a| == 6
    ensures Eval(a, t)
         == a[0] + a[1] * t + a[2] * Pow(t, 2) + a[3] * Pow(t, 3)
            + a[4] * Pow(t, 4) + a[5] * Pow(t, 5)
  {
    assert a == [a[0], a[1], a[2], a[3], a[4], a[5]];
    EvalSix(a[0], a[1], a[2], a[3], a[4], a[5], t);
  }

  /** Its first derivative, written out term by term. */
  lemma QuinticSlope(a: seq<real>, t: real)
    requires |a| == 6
    ensures Eval(Derivative(a), t)
         == a[1] + 2.0 * a[2] * t + 3.0 * a[3] * Pow(t, 2)
            + 4.0 * a[4] * Pow(t, 3) + 5.0 * a[5] * Pow(t, 4)
  {
    var d := Derivative(a);
    assert |d| == 5 && d[0] == a[1] && d[1] == 2.0 * a[2] && d[2] == 3.0 * a[3]
        && d[3] == 4.0 * a[4] && d[4] == 5.0 * a[5];
    assert d == [d[0], d[1], d[2], d[3], d[4]];
    EvalFive(d[0], d[1], d[2], d[3], d[4], t);
  }

  /** Its second derivative, written out term by term. */
  lemma QuinticCurvature(a: seq<real>, t: real)
    requires |a| == 6
    ensures Eval(Derivative(Derivative(a)), t)
         == 2.0 * a[2] + 6.0 * a[3] * t + 12.0 * a[4] * Pow(t, 2) + 20.0 * a[5] * Pow(t, 3)
  {
    var d := Derivative(a);
    assert |d| == 5 && d[0] == a[1] && d[1] == 2.0 * a[2] && d[2] == 3.0 * a[3]
        && d[3] == 4.0 * a[4] && d[4] == 5.0 * a[5];
    var dd := Derivative(d);
    assert |dd| == 4 && dd[0] == d[1] && dd[1] == 2.0 * d[2] && dd[2] == 3.0 * d[3]
        && dd[3] == 4.0 * d[4];
    assert dd == [dd[0], dd[1], dd[2], dd[3]];
    EvalFour(dd[0], dd[1], dd[2], dd[3], t);
  }

  lemma EvalFour(c0: real, c1: real, c2: real, c3: real, t: real)
    ensures Eval([c0, c1, c2, c3], t) == c0 + c1 * t + c2 * Pow(t, 2) + c3 * Pow(t, 3)
  {
    assert [c0, c1, c2, c3][1..] == [c1, c2, c3];
    assert [c1, c2, c3][1..] == [c2, c3];
    assert [c2, c3][1..] == [c3];
    assert [c3][1..] == [];
    SmallPowers(t);
    assert Eval([], t) == 0.0;
    assert Eval([c3], t) == c3 + t * 0.0;
    assert Eval([c2, c3], t) == c2 + t * c3;
    assert Eval([c1, c2, c3], t) == c1 + c2 * t + c3 * Pow(t, 2);
  }

  lemma EvalFive(c0: real, c1: real, c2: real, c3: real, c4: real, t: real)
    ensures Eval([c0, c1, c2, c3, c4], t)
         == c0 + c1 * t + c2 * Pow(t, 2) + c3 * Pow(t, 3) + c4 * Pow(t, 4)
  {
    assert [c0, c1, c2, c3, c4][1..] == [c1, c2, c3, c4];
    EvalFour(c1, c2, c3, c4, t);
    SmallPowers(t);
  }

  lemma EvalSix(c0: real, c1: real, c2: real, c3: real, c4: real, c5: real, t: real)
    ensures Eval([c0, c1, c2, c3, c4, c5], t)
         == c0 + c1 * t + c2 * Pow(t, 2) + c3 * Pow(t, 3)
            + c4 * Pow(t, 4) + c5 * Pow(t, 5)
  {
    assert [c0, c1, c2, c3, c4, c5][1..] == [c1, c2, c3, c4, c5];
    EvalFive(c1, c2, c3, c4, c5, t);
    SmallPowers(t);
  }
}
