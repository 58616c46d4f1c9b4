/** The test-side helpers of the solver: a test case record, the tolerance
    comparison `close_enough`, the fixed table of test cases and the table of
    expected coefficient vectors. */
module Helper {

  /** One scenario: start state, end state (each [s, s_dot, s_double_dot])
      and the duration T of the manoeuvre. */
  datatype TestCase = TestCase(start: seq<real>, end: seq<real>, T: real)

  /** The default tolerance of `close_enough`, negative as written. */
  const DefaultEps: real := -0.01

  /** The tolerance the comparison was evidently meant to use. */
  const IntendedEps: real := 0.01

  /** Absolute value (`fabs`). */
  function Fabs(x: real): real
  {
    if x < 0.0 then -x else x
  }

  /** Specification of `close_enough`: same length, and every element of
      `poly` differs from the matching one of `target` by at most `eps`.
      `eps` is used as given: it is never made non-negative. */
  predicate WithinTolerance(poly: seq<real>, target: seq<real>, eps: real)
  {
    |poly| == |target| &&
    forall i | 0 <= i < |poly| :: Fabs(poly[i] - target[i]) <= eps
  }

  /** `close_enough`: a length check, then an element-wise scan that returns
      false at the first element whose difference exceeds `eps`. */
  method CloseEnough(poly: seq<real>, target: seq<real>, eps: real) returns (ok: bool)
    ensures ok <==> WithinTolerance(poly, target, eps)
    ensures |poly| != |target| ==> !ok
    ensures poly == [] && target == [] ==> ok
  {
    if |poly| != |target| {
      return false;
    }
    var i := 0;
    while i < |poly|
      invariant 0 <= i <= |poly|
      invariant forall k | 0 <= k < i :: Fabs(poly[k] - target[k]) <= eps
    {
      var diff := poly[i] - target[i];
      if Fabs(diff) > eps {
        return false;
      }
      i := i + 1;
    }
    return true;
  }

  /** With a negative tolerance, such as the default, no pair of non-empty
      vectors of equal length is ever close enough: an absolute difference
      is never below zero. */
  lemma NegativeToleranceRejects(poly: seq<real>, target: seq<real>, eps: real)
    requires eps < 0.0
    requires |poly| == |target| > 0
    ensures !WithinTolerance(poly, target, eps)
  {
    assert Fabs(poly[0] - target[0]) > eps;
  }

  /** The default tolerance rejects even an exact match of any non-empty
      vector with itself. */
  lemma DefaultToleranceRejectsExactMatch(v: seq<real>)
    requires |v| > 0
    ensures !WithinTolerance(v, v, DefaultEps)
  {
    NegativeToleranceRejects(v, v, DefaultEps);
  }

  /** The comparison does not depend on which vector is the target. */
  lemma ToleranceSymmetric(poly: seq<real>, target: seq<real>, eps: real)
    ensures WithinTolerance(poly, target, eps) <==> WithinTolerance(target, poly, eps)
  {
    if |poly| == |target| {
      forall i | 0 <= i < |poly|
        ensures Fabs(poly[i] - target[i]) == Fabs(target[i] - poly[i])
      {
      }
    }
  }

  /** With a non-negative tolerance every vector is close enough to itself. */
  lemma ToleranceReflexive(poly: seq<real>, eps: real)
    requires eps >= 0.0
    ensures WithinTolerance(poly, poly, eps)
  {
    // every difference poly[i] - poly[i] is zero
    assert Fabs(0.0) == 0.0;
  }

  /** The three scenarios, in order. */
  const Fixtures: seq<TestCase> := [
    TestCase([0.0, 10.0, 0.0], [10.0, 10.0, 0.0], 1.0),
    TestCase([0.0, 10.0, 0.0], [20.0, 15.0, 20.0], 2.0),
    TestCase([5.0, 10.0, 2.0], [-30.0, -20.0, -4.0], 5.0)
  ]

  /** The expected coefficient vector of each scenario, in the same order. */
  const Answers: seq<seq<real>> := [
    [0.0, 10.0, 0.0, 0.0, 0.0, 0.0],
    [0.0, 10.0, 0.0, 0.0, -0.625, 0.3125],
    [5.0, 10.0, 1.0, -3.0, 0.64, -0.0432]
  ]

  /** `create_tests`: builds the scenario list one case at a time. Every
      case it yields is a valid solver input with states of exactly three
      components and a positive duration. */
  method CreateTests() returns (tc: seq<TestCase>)
    ensures tc == Fixtures
    ensures |tc| == |Answers| == 3
    ensures forall i | 0 <= i < |tc| ::
      |tc[i].start| == 3 && |tc[i].end| == 3 && tc[i].T > 0.0
  {
    tc := [];
    tc := tc + [Fixtures[0]];
    tc := tc + [Fixtures[1]];
    tc := tc + [Fixtures[2]];
  }
}
