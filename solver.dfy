/** The jerk-minimizing trajectory solver `JMT` and the test loop of `main`.

    Given a start state and an end state, each [s, s_dot, s_double_dot], and a
    duration T, `JMT` returns the six coefficients [a0, ..., a5] of the quintic
    s(t) = a0 + a1 t + a2 t^2 + a3 t^3 + a4 t^4 + a5 t^5 whose position,
    velocity and acceleration are the start state at t = 0 and the end state
    at t = T. The first three coefficients come from the start state; the last
    three solve the 3x3 linear system A x = b, solved here in closed form. */
module QuinticSolver {
  import opened Polynomial
  import opened Helper

  /** A column vector of three reals. */
  datatype Vec3 = Vec3(x0: real, x1: real, x2: real)

  /** A 3x3 matrix, given by its rows. */
  datatype Mat3 = Mat3(r0: Vec3, r1: Vec3, r2: Vec3)

  function Dot(u: Vec3, v: Vec3): real
  {
    u.x0 * v.x0 + u.x1 * v.x1 + u.x2 * v.x2
  }

  /** The matrix-vector product m v. */
  function Apply(m: Mat3, v: Vec3): Vec3
  {
    Vec3(Dot(m.r0, v), Dot(m.r1, v), Dot(m.r2, v))
  }

  /** The determinant, by cofactor expansion along the first row. */
  function Det(m: Mat3): real
  {
    m.r0.x0 * (m.r1.x1 * m.r2.x2 - m.r1.x2 * m.r2.x1)
    - m.r0.x1 * (m.r1.x0 * m.r2.x2 - m.r1.x2 * m.r2.x0)
    + m.r0.x2 * (m.r1.x0 * m.r2.x1 - m.r1.x1 * m.r2.x0)
  }

  /** Position, velocity and acceleration at time t of the trajectory with
      coefficients a: the polynomial and its first two derivatives. */
  function Position(a: seq<real>, t: real): real
  {
    Eval(a, t)
  }

  function Velocity(a: seq<real>, t: real): real
  {
    Eval(Derivative(a), t)
  }

  function Acceleration(a: seq<real>, t: real): real
  {
    Eval(Derivative(Derivative(a)), t)
  }

  /** The trajectory a passes through the kinematic state s at time t. */
  predicate MeetsState(a: seq<real>, s: seq<real>, t: real)
    requires |s| >= 3
  {
    Position(a, t) == s[0] && Velocity(a, t) == s[1] && Acceleration(a, t) == s[2]
  }

  /** The powers T, T^2, ..., T^5 that the system uses. The algebra below is
      done on such a record, with the powers as plain numbers tied together
      by `Tower`; `PowersOf` fills it from `Pow`. */
  datatype Powers = Powers(t: real, p2: real, p3: real, p4: real, p5: real)

  function PowersOf(T: real): Powers
  {
    Powers(T, Pow(T, 2), Pow(T, 3), Pow(T, 4), Pow(T, 5))
  }

  /** Each power is the one before it times t, and products of powers add
      their exponents. */
  predicate Tower(w: Powers)
  {
    && w.p3 == w.p2 * w.t && w.p4 == w.p3 * w.t && w.p5 == w.p4 * w.t
    && w.p4 == w.p2 * w.p2 && w.p5 == w.p3 * w.p2
  }

  /** The powers of a non-zero T are non-zero. */
  predicate NonzeroPowers(w: Powers)
  {
    w.t != 0.0 && w.p2 != 0.0 && w.p3 != 0.0 && w.p4 != 0.0 && w.p5 != 0.0
  }

  lemma PowersOfTower(T: real)
    ensures Tower(PowersOf(T))
    ensures T != 0.0 ==> NonzeroPowers(PowersOf(T))
  {
    SmallPowers(T);
    PowAdd(T, 2, 2);
    PowAdd(T, 3, 2);
    if T != 0.0 {
      PowNonzero(T, 2);
      PowNonzero(T, 3);
      PowNonzero(T, 4);
      PowNonzero(T, 5);
    }
  }

  /** The matrix A on given powers: row k gives what a3, a4, a5 contribute to
      the k-th derivative of the trajectory at time t. */
  function MatrixOf(w: Powers): Mat3
  {
    Mat3(Vec3(w.p3, w.p4, w.p5),
         Vec3(3.0 * w.p2, 4.0 * w.p3, 5.0 * w.p4),
         Vec3(6.0 * w.t, 12.0 * w.p2, 20.0 * w.p3))
  }

  /** The matrix A of the system at duration T. */
  function SystemMatrix(T: real): (m: Mat3)
    ensures m.r0 == Vec3(Pow(T, 3), Pow(T, 4), Pow(T, 5))
    ensures m.r1 == Vec3(3.0 * Pow(T, 2), 4.0 * Pow(T, 3), 5.0 * Pow(T, 4))
    ensures m.r2 == Vec3(6.0 * T, 12.0 * Pow(T, 2), 20.0 * Pow(T, 3))
  {
    MatrixOf(PowersOf(T))
  }

  /** The vector b: what the end state still asks for once the terms fixed by
      a0, a1, a2 are subtracted. */
  function EndResidual(start: seq<real>, end: seq<real>, T: real): (b: Vec3)
    requires |start| >= 3 && |end| >= 3
    ensures b.x0 == end[0] - (start[0] + start[1] * T + 0.5 * start[2] * Pow(T, 2))
    ensures b.x1 == end[1] - (start[1] + start[2] * T)
    ensures b.x2 == end[2] - start[2]
  {
    Vec3(end[0] - (start[0] + start[1] * T + 0.5 * start[2] * Pow(T, 2)),
         end[1] - (start[1] + start[2] * T),
         end[2] - start[2])
  }

  /** The closed-form solution of A x = b on given powers: the adjugate of A,
      divided by its determinant 2 T^9, applied to b. */
  function SolveOf(w: Powers, b: Vec3): Vec3
    requires NonzeroPowers(w)
  {
    Vec3((20.0 * b.x0 - 8.0 * (b.x1 * w.t) + b.x2 * w.p2) / (2.0 * w.p3),
         (-15.0 * b.x0 + 7.0 * (b.x1 * w.t) - b.x2 * w.p2) / w.p4,
         (12.0 * b.x0 - 6.0 * (b.x1 * w.t) + b.x2 * w.p2) / (2.0 * w.p5))
  }

  /** The closed-form solution of A x = b at duration T != 0: the one
      vector that A maps to b. */
  function Solve(T: real, b: Vec3): (x: Vec3)
    requires T != 0.0
    ensures forall y :: Apply(SystemMatrix(T), y) == b <==> y == x
  {
    ClosedFormInverse(T, b);
    SolveOf(PowersOf(T), b)
  }

  /** A has determinant 2 T^9. */
  lemma SystemDeterminant(T: real)
    ensures Det(SystemMatrix(T)) == 2.0 * Pow(T, 9)
  {
    var m := SystemMatrix(T);
    // every product of three entries below is T^9
    PowAdd(T, 3, 3);
    PowAdd(T, 4, 2);
    PowAdd(T, 6, 3);
    PowAdd(T, 4, 4);
    PowAdd(T, 8, 1);
    PowAdd(T, 2, 2);
    PowAdd(T, 3, 1);
    PowAdd(T, 5, 4);
    assert Pow(T, 1) == T;
    assert m.r0.x0 * (m.r1.x1 * m.r2.x2 - m.r1.x2 * m.r2.x1) == 20.0 * Pow(T, 9);
    assert m.r0.x1 * (m.r1.x0 * m.r2.x2 - m.r1.x2 * m.r2.x0) == 30.0 * Pow(T, 9);
    assert m.r0.x2 * (m.r1.x0 * m.r2.x1 - m.r1.x1 * m.r2.x0) == 12.0 * Pow(T, 9);
  }

  /** A is invertible exactly when T is not zero. */
  lemma SystemInvertible(T: real)
    ensures Det(SystemMatrix(T)) != 0.0 <==> T != 0.0
  {
    SystemDeterminant(T);
    PowZeroIff(T, 9);
  }

  /** The linear core of the solve, with b1 t and b2 t^2 taken as unknowns
      of their own: the scaled unknowns y = (t^3 x0, t^4 x1, t^5 x2) satisfy
      the scaled system exactly when they are what the closed form gives. */
  lemma ScaledSystem(b0: real, b1T: real, b2T2: real, y0: real, y1: real, y2: real)
    ensures (y0 + y1 + y2 == b0
             && 3.0 * y0 + 4.0 * y1 + 5.0 * y2 == b1T
             && 6.0 * y0 + 12.0 * y1 + 20.0 * y2 == b2T2)
        <==> (2.0 * y0 == 20.0 * b0 - 8.0 * b1T + b2T2
             && y1 == -15.0 * b0 + 7.0 * b1T - b2T2
             && 2.0 * y2 == 12.0 * b0 - 6.0 * b1T + b2T2)
  {
  }

  lemma Cancel(u: real, v: real, t: real)
    requires t != 0.0 && u * t == v * t
    ensures u == v
  {
  }

  /** The closed form multiplied back by the powers it divides by. */
  predicate ClosedFormScaled(w: Powers, b: Vec3, x: Vec3)
  {
    && 2.0 * (w.p3 * x.x0) == 20.0 * b.x0 - 8.0 * (b.x1 * w.t) + b.x2 * w.p2
    && w.p4 * x.x1 == -15.0 * b.x0 + 7.0 * (b.x1 * w.t) - b.x2 * w.p2
    && 2.0 * (w.p5 * x.x2) == 12.0 * b.x0 - 6.0 * (b.x1 * w.t) + b.x2 * w.p2
  }

  lemma SolveScaled(w: Powers, b: Vec3)
    requires NonzeroPowers(w)
    ensures ClosedFormScaled(w, b, SolveOf(w, b))
  {
  }

  /** Multiplying both sides of an equation by the same number. */
  lemma MulBoth(u: real, v: real, t: real)
    requires u == v
    ensures u * t == v * t
  {
  }

  /** Row 1 of A x times t, in terms of the scaled unknowns p3 x0, p4 x1, p5 x2. */
  lemma ScaledRow1(t: real, p2: real, p3: real, p4: real, p5: real, x0: real, x1: real, x2: real)
    requires p3 == p2 * t && p4 == p3 * t && p5 == p4 * t
    ensures (3.0 * p2 * x0 + 4.0 * p3 * x1 + 5.0 * p4 * x2) * t
         == 3.0 * (p3 * x0) + 4.0 * (p4 * x1) + 5.0 * (p5 * x2)
  {
    MulBoth(p3, p2 * t, x0);
    MulBoth(p4, p3 * t, x1);
    MulBoth(p5, p4 * t, x2);
  }

  /** Row 2 of A x times p2, in terms of the scaled unknowns. */
  lemma ScaledRow2(t: real, p2: real, p3: real, p4: real, p5: real, x0: real, x1: real, x2: real)
    requires p3 == p2 * t && p4 == p2 * p2 && p5 == p3 * p2
    ensures (6.0 * t * x0 + 12.0 * p2 * x1 + 20.0 * p3 * x2) * p2
         == 6.0 * (p3 * x0) + 12.0 * (p4 * x1) + 20.0 * (p5 * x2)
  {
    MulBoth(p3, p2 * t, x0);
    MulBoth(p4, p2 * p2, x1);
    MulBoth(p5, p3 * p2, x2);
  }

  /** A solution of the system, on powers given as plain numbers, has the
      scaled closed form. */
  lemma RowsGiveClosedForm(t: real, p2: real, p3: real, p4: real, p5: real,
                           b0: real, b1: real, b2: real, x0: real, x1: real, x2: real)
    requires p3 == p2 * t && p4 == p3 * t && p5 == p4 * t && p4 == p2 * p2 && p5 == p3 * p2
    requires p3 * x0 + p4 * x1 + p5 * x2 == b0
    requires 3.0 * p2 * x0 + 4.0 * p3 * x1 + 5.0 * p4 * x2 == b1
    requires 6.0 * t * x0 + 12.0 * p2 * x1 + 20.0 * p3 * x2 == b2
    ensures 2.0 * (p3 * x0) == 20.0 * b0 - 8.0 * (b1 * t) + b2 * p2
    ensures p4 * x1 == -15.0 * b0 + 7.0 * (b1 * t) - b2 * p2
    ensures 2.0 * (p5 * x2) == 12.0 * b0 - 6.0 * (b1 * t) + b2 * p2
  {
    ScaledRow1(t, p2, p3, p4, p5, x0, x1, x2);
    ScaledRow2(t, p2, p3, p4, p5, x0, x1, x2);
    MulBoth(3.0 * p2 * x0 + 4.0 * p3 * x1 + 5.0 * p4 * x2, b1, t);
    MulBoth(6.0 * t * x0 + 12.0 * p2 * x1 + 20.0 * p3 * x2, b2, p2);
    ScaledSystem(b0, b1 * t, b2 * p2, p3 * x0, p4 * x1, p5 * x2);
  }

  /** For non-zero t and p2, the scaled closed form, on powers given as plain
      numbers, solves the system. */
  lemma ClosedFormGivesRows(t: real, p2: real, p3: real, p4: real, p5: real,
                            b0: real, b1: real, b2: real, x0: real, x1: real, x2: real)
    requires t != 0.0 && p2 != 0.0
    requires p3 == p2 * t && p4 == p3 * t && p5 == p4 * t && p4 == p2 * p2 && p5 == p3 * p2
    requires 2.0 * (p3 * x0) == 20.0 * b0 - 8.0 * (b1 * t) + b2 * p2
    requires p4 * x1 == -15.0 * b0 + 7.0 * (b1 * t) - b2 * p2
    requires 2.0 * (p5 * x2) == 12.0 * b0 - 6.0 * (b1 * t) + b2 * p2
    ensures p3 * x0 + p4 * x1 + p5 * x2 == b0
    ensures 3.0 * p2 * x0 + 4.0 * p3 * x1 + 5.0 * p4 * x2 == b1
    ensures 6.0 * t * x0 + 12.0 * p2 * x1 + 20.0 * p3 * x2 == b2
  {
    ScaledRow1(t, p2, p3, p4, p5, x0, x1, x2);
    ScaledRow2(t, p2, p3, p4, p5, x0, x1, x2);
    ScaledSystem(b0, b1 * t, b2 * p2, p3 * x0, p4 * x1, p5 * x2);
    Cancel(3.0 * p2 * x0 + 4.0 * p3 * x1 + 5.0 * p4 * x2, b1, t);
    Cancel(6.0 * t * x0 + 12.0 * p2 * x1 + 20.0 * p3 * x2, b2, p2);
  }

  /** A x written out row by row. */
  lemma MatrixRows(w: Powers, x: Vec3)
    ensures Apply(MatrixOf(w), x)
         == Vec3(w.p3 * x.x0 + w.p4 * x.x1 + w.p5 * x.x2,
                 3.0 * w.p2 * x.x0 + 4.0 * w.p3 * x.x1 + 5.0 * w.p4 * x.x2,
                 6.0 * w.t * x.x0 + 12.0 * w.p2 * x.x1 + 20.0 * w.p3 * x.x2)
  {
  }

  lemma Vec3Eta(v: Vec3)
    ensures v == Vec3(v.x0, v.x1, v.x2)
  {
  }

  lemma ClosedFormScaledIntro(w: Powers, b0: real, b1: real, b2: real, x: Vec3)
    requires 2.0 * (w.p3 * x.x0) == 20.0 * b0 - 8.0 * (b1 * w.t) + b2 * w.p2
    requires w.p4 * x.x1 == -15.0 * b0 + 7.0 * (b1 * w.t) - b2 * w.p2
    requires 2.0 * (w.p5 * x.x2) == 12.0 * b0 - 6.0 * (b1 * w.t) + b2 * w.p2
    ensures ClosedFormScaled(w, Vec3(b0, b1, b2), x)
  {
  }

  /** The image A x of any vector satisfies the scaled closed form with
      b = A x: the closed form is a left inverse of A. */
  lemma ImageClosedForm(w: Powers, x: Vec3)
    requires Tower(w)
    ensures ClosedFormScaled(w, Apply(MatrixOf(w), x), x)
  {
    var s0 := w.p3 * x.x0 + w.p4 * x.x1 + w.p5 * x.x2;
    var s1 := 3.0 * w.p2 * x.x0 + 4.0 * w.p3 * x.x1 + 5.0 * w.p4 * x.x2;
    var s2 := 6.0 * w.t * x.x0 + 12.0 * w.p2 * x.x1 + 20.0 * w.p3 * x.x2;
    MatrixRows(w, x);
    RowsGiveClosedForm(w.t, w.p2, w.p3, w.p4, w.p5, s0, s1, s2, x.x0, x.x1, x.x2);
    ClosedFormScaledIntro(w, s0, s1, s2, x);
  }

  /** With non-zero powers, every vector satisfying the scaled closed form
      solves A x = b. */
  lemma ClosedFormGivesSystem(w: Powers, b: Vec3, x: Vec3)
    requires Tower(w) && NonzeroPowers(w)
    requires ClosedFormScaled(w, b, x)
    ensures Apply(MatrixOf(w), x) == b
  {
    MatrixRows(w, x);
    Vec3Eta(b);
    ClosedFormGivesRows(w.t, w.p2, w.p3, w.p4, w.p5, b.x0, b.x1, b.x2, x.x0, x.x1, x.x2);
  }

  /** With non-zero powers, at most one vector satisfies the scaled closed form. */
  lemma ClosedFormScaledUnique(w: Powers, b: Vec3, x: Vec3, z: Vec3)
    requires NonzeroPowers(w)
    requires ClosedFormScaled(w, b, x) && ClosedFormScaled(w, b, z)
    ensures x == z
  {
    Cancel(x.x0, z.x0, w.p3);
    Cancel(x.x1, z.x1, w.p4);
    Cancel(x.x2, z.x2, w.p5);
  }

  /** For T != 0 the closed form solves A x = b, and nothing else does. */
  lemma ClosedFormInverse(T: real, b: Vec3)
    requires T != 0.0
    ensures NonzeroPowers(PowersOf(T))
    ensures forall y :: Apply(SystemMatrix(T), y) == b <==> y == SolveOf(PowersOf(T), b)
  {
    var w := PowersOf(T);
    PowersOfTower(T);
    var x := SolveOf(w, b);
    SolveScaled(w, b);
    ClosedFormGivesSystem(w, b, x);
    forall y | Apply(SystemMatrix(T), y) == b
      ensures y == x
    {
      ImageClosedForm(w, y);
      ClosedFormScaledUnique(w, b, y, x);
    }
  }

  /** The closed form undoes A: solving A x = A x gives back x. */
  lemma SolveLeftInverse(T: real, x: Vec3)
    requires T != 0.0
    ensures Solve(T, Apply(SystemMatrix(T), x)) == x
  {
  }

  /** The coefficient vector [a0, a1, a2, a3, a4, a5] with a0 = start[0],
      a1 = start[1], a2 = start[2] / 2 and (a3, a4, a5) = x. */
  function Assemble(start: seq<real>, x: Vec3): (a: seq<real>)
    requires |start| >= 3
    ensures |a| == 6
    ensures a[0] == start[0] && a[1] == start[1] && a[2] == 0.5 * start[2]
    ensures a[3] == x.x0 && a[4] == x.x1 && a[5] == x.x2
  {
    [start[0], start[1], 0.5 * start[2], x.x0, x.x1, x.x2]
  }

  /** A six-coefficient trajectory starts in the start state exactly when
      its first three coefficients are start[0], start[1] and start[2] / 2. */
  lemma StartConditions(start: seq<real>, q: seq<real>)
    requires |start| >= 3 && |q| == 6
    ensures MeetsState(q, start, 0.0)
        <==> q == Assemble(start, Vec3(q[3], q[4], q[5]))
  {
    QuinticValue(q, 0.0);
    QuinticSlope(q, 0.0);
    QuinticCurvature(q, 0.0);
    SmallPowers(0.0);
    if MeetsState(q, start, 0.0) {
      assert q[0] == start[0] && q[1] == start[1] && q[2] == 0.5 * start[2];
      assert q == [q[0], q[1], q[2], q[3], q[4], q[5]];
    }
  }

  // Definitions written out as single facts, so that the proofs that use
  // them need no unfolding of their own.

  lemma PowersOfParts(T: real)
    ensures PowersOf(T).t == T && PowersOf(T).p2 == Pow(T, 2) && PowersOf(T).p3 == Pow(T, 3)
    ensures PowersOf(T).p4 == Pow(T, 4) && PowersOf(T).p5 == Pow(T, 5)
    ensures SystemMatrix(T) == MatrixOf(PowersOf(T))
  {
  }

  /** The end position on powers given as plain numbers. */
  lemma PositionRow(s0: real, s1: real, s2: real, e0: real,
                    t: real, p2: real, p3: real, p4: real, p5: real, x0: real, x1: real, x2: real)
    ensures s0 + s1 * t + 0.5 * s2 * p2 + x0 * p3 + x1 * p4 + x2 * p5 == e0
        <==> p3 * x0 + p4 * x1 + p5 * x2 == e0 - (s0 + s1 * t + 0.5 * s2 * p2)
  {
  }

  /** The end velocity on powers given as plain numbers. */
  lemma VelocityRow(s1: real, s2: real, e1: real,
                    t: real, p2: real, p3: real, p4: real, x0: real, x1: real, x2: real)
    ensures s1 + 2.0 * (0.5 * s2) * t + 3.0 * x0 * p2 + 4.0 * x1 * p3 + 5.0 * x2 * p4 == e1
        <==> 3.0 * p2 * x0 + 4.0 * p3 * x1 + 5.0 * p4 * x2 == e1 - (s1 + s2 * t)
  {
  }

  /** The end acceleration on powers given as plain numbers. */
  lemma AccelerationRow(s2: real, e2: real, t: real, p2: real, p3: real, x0: real, x1: real, x2: real)
    ensures 2.0 * (0.5 * s2) + 6.0 * x0 * t + 12.0 * x1 * p2 + 20.0 * x2 * p3 == e2
        <==> 6.0 * t * x0 + 12.0 * p2 * x1 + 20.0 * p3 * x2 == e2 - s2
  {
  }

  /** The position of the assembled trajectory at T, on the powers of T. */
  lemma AssembledPosition(start: seq<real>, x: Vec3, T: real)
    requires |start| >= 3
    ensures Position(Assemble(start, x), T)
         == start[0] + start[1] * T + 0.5 * start[2] * PowersOf(T).p2
            + x.x0 * PowersOf(T).p3 + x.x1 * PowersOf(T).p4 + x.x2 * PowersOf(T).p5
  {
    QuinticValue(Assemble(start, x), T);
    PowersOfParts(T);
  }

  /** Its velocity at T, on the powers of T. */
  lemma AssembledVelocity(start: seq<real>, x: Vec3, T: real)
    requires |start| >= 3
    ensures Velocity(Assemble(start, x), T)
         == start[1] + 2.0 * (0.5 * start[2]) * T + 3.0 * x.x0 * PowersOf(T).p2
            + 4.0 * x.x1 * PowersOf(T).p3 + 5.0 * x.x2 * PowersOf(T).p4
  {
    QuinticSlope(Assemble(start, x), T);
    PowersOfParts(T);
  }

  /** Its acceleration at T, on the powers of T. */
  lemma AssembledAcceleration(start: seq<real>, x: Vec3, T: real)
    requires |start| >= 3
    ensures Acceleration(Assemble(start, x), T)
         == 2.0 * (0.5 * start[2]) + 6.0 * x.x0 * T + 12.0 * x.x1 * PowersOf(T).p2
            + 20.0 * x.x2 * PowersOf(T).p3
  {
    QuinticCurvature(Assemble(start, x), T);
    PowersOfParts(T);
  }

  /** The assembled trajectory is at end[0] at time T exactly when the first
      row of A x equals the first component of b. */
  lemma EndPosition(start: seq<real>, end: seq<real>, T: real, x: Vec3)
    requires |start| >= 3 && |end| >= 3
    ensures Position(Assemble(start, x), T) == end[0]
        <==> Apply(SystemMatrix(T), x).x0 == EndResidual(start, end, T).x0
  {
    var w := PowersOf(T);
    AssembledPosition(start, x, T);
    PowersOfParts(T);
    MatrixRows(w, x);
    PositionRow(start[0], start[1], start[2], end[0], T, w.p2, w.p3, w.p4, w.p5, x.x0, x.x1, x.x2);
  }

  /** The same for the velocity and the second row. */
  lemma EndVelocity(start: seq<real>, end: seq<real>, T: real, x: Vec3)
    requires |start| >= 3 && |end| >= 3
    ensures Velocity(Assemble(start, x), T) == end[1]
        <==> Apply(SystemMatrix(T), x).x1 == EndResidual(start, end, T).x1
  {
    var w := PowersOf(T);
    AssembledVelocity(start, x, T);
    PowersOfParts(T);
    MatrixRows(w, x);
    VelocityRow(start[1], start[2], end[1], T, w.p2, w.p3, w.p4, x.x0, x.x1, x.x2);
  }

  /** The same for the acceleration and the third row. */
  lemma EndAcceleration(start: seq<real>, end: seq<real>, T: real, x: Vec3)
    requires |start| >= 3 && |end| >= 3
    ensures Acceleration(Assemble(start, x), T) == end[2]
        <==> Apply(SystemMatrix(T), x).x2 == EndResidual(start, end, T).x2
  {
    var w := PowersOf(T);
    AssembledAcceleration(start, x, T);
    PowersOfParts(T);
    MatrixRows(w, x);
    AccelerationRow(start[2], end[2], T, w.p2, w.p3, x.x0, x.x1, x.x2);
  }

  /** A trajectory whose first three coefficients come from the start state
      ends in the end state at time T exactly when (a3, a4, a5) solves
      A x = b. */
  lemma EndConditions(start: seq<real>, end: seq<real>, T: real, x: Vec3)
    requires |start| >= 3 && |end| >= 3
    ensures MeetsState(Assemble(start, x), end, T)
        <==> Apply(SystemMatrix(T), x) == EndResidual(start, end, T)
  {
    EndPosition(start, end, T, x);
    EndVelocity(start, end, T, x);
    EndAcceleration(start, end, T, x);
    Vec3Eta(Apply(SystemMatrix(T), x));
    Vec3Eta(EndResidual(start, end, T));
  }

  /** `JMT`: the quintic that joins `start` at t = 0 to `end` at t = T.
      The source reads indices 0..2 of both states and relies on A being
      invertible, which holds exactly when T != 0. */
  function Jmt(start: seq<real>, end: seq<real>, T: real): (a: seq<real>)
    requires |start| >= 3 && |end| >= 3 && T != 0.0
    ensures |a| == 6
    ensures MeetsState(a, start, 0.0)
    ensures MeetsState(a, end, T)
  {
    var b := EndResidual(start, end, T);
    var x := Solve(T, b);
    StartConditions(start, Assemble(start, x));
    EndConditions(start, end, T, x);
    Assemble(start, x)
  }

  /** `JMT`'s result is the only quintic meeting both boundary states: a
      six-coefficient trajectory meets them if and only if it is `JMT`'s. */
  lemma JmtUnique(start: seq<real>, end: seq<real>, T: real, q: seq<real>)
    requires |start| >= 3 && |end| >= 3 && T != 0.0
    requires |q| == 6
    ensures MeetsState(q, start, 0.0) && MeetsState(q, end, T) <==> q == Jmt(start, end, T)
  {
    if MeetsState(q, start, 0.0) && MeetsState(q, end, T) {
      var x := Vec3(q[3], q[4], q[5]);
      StartConditions(start, q);
      EndConditions(start, end, T, x);
    }
  }

  /** The example of the documentation comment, which is also the first
      scenario: constant velocity 10 for one second needs no higher-order
      terms. */
  lemma JmtDocExample()
    ensures Jmt([0.0, 10.0, 0.0], [10.0, 10.0, 0.0], 1.0) == [0.0, 10.0, 0.0, 0.0, 0.0, 0.0]
  {
  }

  /** The second scenario: speeding up from 10 to 15 over two seconds. */
  lemma JmtSecondScenario()
    ensures Jmt([0.0, 10.0, 0.0], [20.0, 15.0, 20.0], 2.0) == [0.0, 10.0, 0.0, 0.0, -0.625, 0.3125]
  {
    assert PowersOf(2.0) == Powers(2.0, 4.0, 8.0, 16.0, 32.0);
  }

  /** The third scenario: turning back over five seconds. */
  lemma JmtThirdScenario()
    ensures Jmt([5.0, 10.0, 2.0], [-30.0, -20.0, -4.0], 5.0) == [5.0, 10.0, 1.0, -3.0, 0.64, -0.0432]
  {
    assert PowersOf(5.0) == Powers(5.0, 25.0, 125.0, 625.0, 3125.0);
  }

  /** Over the reals, `JMT` on each scenario gives the expected answer exactly. */
  lemma FixturesMatchAnswers()
    ensures |Fixtures| == |Answers|
    ensures forall i | 0 <= i < |Fixtures| ::
      |Fixtures[i].start| >= 3 && |Fixtures[i].end| >= 3 && Fixtures[i].T != 0.0
      && Jmt(Fixtures[i].start, Fixtures[i].end, Fixtures[i].T) == Answers[i]
  {
    forall i | 0 <= i < |Fixtures|
      ensures |Fixtures[i].start| >= 3 && |Fixtures[i].end| >= 3 && Fixtures[i].T != 0.0
      ensures Jmt(Fixtures[i].start, Fixtures[i].end, Fixtures[i].T) == Answers[i]
    {
      if i == 0 {
        JmtDocExample();
      } else if i == 1 {
        JmtSecondScenario();
      } else {
        JmtThirdScenario();
      }
    }
  }

  /** The loop of `main`: run `JMT` on every case, compare it with the
      matching answer, and AND the verdicts together. Every case is compared,
      even after one has failed. */
  method TotalCorrect(tc: seq<TestCase>, answers: seq<seq<real>>, eps: real)
    returns (totalCorrect: bool)
    requires |tc| <= |answers|
    requires forall i | 0 <= i < |tc| :: |tc[i].start| >= 3 && |tc[i].end| >= 3 && tc[i].T != 0.0
    ensures totalCorrect <==>
      forall i | 0 <= i < |tc| ::
        WithinTolerance(Jmt(tc[i].start, tc[i].end, tc[i].T), answers[i], eps)
  {
    totalCorrect := true;
    for i := 0 to |tc|
      invariant totalCorrect <==>
        forall k | 0 <= k < i ::
          WithinTolerance(Jmt(tc[k].start, tc[k].end, tc[k].T), answers[k], eps)
    {
      var jmt := Jmt(tc[i].start, tc[i].end, tc[i].T);
      var correct := CloseEnough(jmt, answers[i], eps);
      totalCorrect := totalCorrect && correct;
    }
  }

  /** `main` with the tolerance of `close_enough` as a parameter: the
      scenarios pass exactly when the tolerance is not negative. */
  method RunHarness(eps: real) returns (totalCorrect: bool)
    ensures totalCorrect <==> eps >= 0.0
  {
    var tc := CreateTests();
    FixturesMatchAnswers();
    totalCorrect := TotalCorrect(tc, Answers, eps);
    if eps < 0.0 {
      NegativeToleranceRejects(Jmt(tc[0].start, tc[0].end, tc[0].T), Answers[0], eps);
    } else {
      forall i | 0 <= i < |tc|
        ensures WithinTolerance(Jmt(tc[i].start, tc[i].end, tc[i].T), Answers[i], eps)
      {
        ToleranceReflexive(Answers[i], eps);
      }
    }
  }

  /** `main` as written: `close_enough` is called with its default tolerance
      -0.01, so the run always reports the output as incorrect. */
  method RunMain() returns (totalCorrect: bool)
    ensures !totalCorrect
  {
    totalCorrect := RunHarness(DefaultEps);
  }

  /** `main` with the tolerance the comparison was meant to have (0.01):
      every scenario passes. */
  method RunMainIntended() returns (totalCorrect: bool)
    ensures totalCorrect
  {
    totalCorrect := RunHarness(IntendedEps);
  }
}
