# Quintic polynomial solver (jerk-minimizing trajectory)

This project models the quintic polynomial solver of a path-planning exercise.
`JMT` takes a start state and an end state, each `[s, s_dot, s_double_dot]`,
and a duration `T`. It returns the six coefficients `[a0, ..., a5]` of the quintic
`s(t) = a0 + a1 t + ... + a5 t^5`. The quintic's position, velocity and
acceleration equal the start state at `t = 0` and the end state at `t = T`.
The first three coefficients come from the start state. The last three solve
the 3x3 linear system `A x = b`. The model also covers the test side:
- `close_enough`, a length check followed by an element-wise tolerance scan;
- the three fixture cases from `create_tests`;
- their expected `answers`;
- the loop in `main` that ANDs the verdicts together.

The project has three modules:
- `Polynomial` (`polynomial.dfy`): evaluation by Horner's rule, the derivative, natural powers, and the term-by-term expansion of a quintic and its first two derivatives.
- `Helper` (`helper.dfy`): `helper.h`. It holds the test-case record, `close_enough` as a loop method against the predicate `WithinTolerance`, `create_tests` as a method that grows the list one case at a time, and the answer table.
- `QuinticSolver` (`solver.dfy`): `main.cpp`.
  - The matrix `A` and the vector `b`.
  - A closed-form solve in place of the general matrix inverse.
  - `Jmt`, with its correctness and uniqueness proved.
  - The three scenarios computed exactly.
  - The loop of `main`.

The closed-form solve rests on a few lemmas:
- `A` has determinant `2 T^9`.
- The solve is a two-sided inverse of `A` when `T != 0`.
- The algebra runs on a record of the powers `T, T^2, ..., T^5` tied together by `Tower`. This keeps each non-linear step small.

## Model

| member | source | states |
|---|---|---|
| Polynomial.QuinticValue | main.cpp:16-18 | a six-coefficient polynomial evaluates to a0 + a1 t + a2 t^2 + ... + a5 t^5 |
| Polynomial.QuinticSlope | main.cpp:16-18 | its first derivative is a1 + 2 a2 t + 3 a3 t^2 + 4 a4 t^3 + 5 a5 t^4 |
| Polynomial.QuinticCurvature | main.cpp:16-18 | its second derivative is 2 a2 + 6 a3 t + 12 a4 t^2 + 20 a5 t^3 |
| Polynomial.PowAdd | main.cpp:25-28 | T^(m+n) = T^m T^n, so the chain T_2 = T*T, T_3 = T_2*T, ... gives the powers of T |
| QuinticSolver.PowersOfTower | main.cpp:25-28 | the powers satisfy T_3 = T_2 T, T_4 = T_3 T, T_5 = T_4 T, and are all non-zero when T is |
| QuinticSolver.SystemMatrix | main.cpp:29-32 | A has rows (T^3, T^4, T^5), (3 T^2, 4 T^3, 5 T^4), (6 T, 12 T^2, 20 T^3); its meaning is fixed by SystemDeterminant and ClosedFormInverse |
| QuinticSolver.SystemDeterminant | main.cpp:29-32 | the matrix A has determinant 2 T^9 |
| QuinticSolver.SystemInvertible | main.cpp:29-32 | A is invertible (non-zero determinant) exactly when T != 0 |
| QuinticSolver.EndResidual | main.cpp:34-37 | b = (end[0] - (start[0] + start[1] T + start[2] T^2 / 2), end[1] - (start[1] + start[2] T), end[2] - start[2]); EndConditions proves that A x = b is exactly the end condition |
| QuinticSolver.ClosedFormInverse | main.cpp:39-40 | for T != 0 the adjugate formula a3 = (20 b0 - 8 b1 T + b2 T^2) / (2 T^3), a4 = (-15 b0 + 7 b1 T - b2 T^2) / T^4, a5 = (12 b0 - 6 b1 T + b2 T^2) / (2 T^5) solves A y = b, and no other y does |
| QuinticSolver.Solve | main.cpp:39-40 | x = A^-1 b: for T != 0 and every y, A y = b exactly when y = x (existence and uniqueness) |
| QuinticSolver.SolveLeftInverse | main.cpp:39-40 | for T != 0 solving A x = (A x) gives back x, so the solve is the inverse on both sides |
| QuinticSolver.Assemble | main.cpp:42-48 | six coefficients: a0 = start[0], a1 = start[1], a2 = start[2] / 2, then x; StartConditions proves these meet the start state |
| QuinticSolver.StartConditions | main.cpp:42-45 | a six-coefficient trajectory has position, velocity and acceleration start[0..2] at t = 0 if and only if a0 = start[0], a1 = start[1], a2 = start[2] / 2 |
| QuinticSolver.EndPosition | main.cpp:34-48 | with a0..a2 from the start state, the position at T is end[0] if and only if row 0 of A x equals b[0] |
| QuinticSolver.EndVelocity | main.cpp:34-48 | the velocity at T is end[1] if and only if row 1 of A x equals b[1] |
| QuinticSolver.EndAcceleration | main.cpp:34-48 | the acceleration at T is end[2] if and only if row 2 of A x equals b[2] |
| QuinticSolver.EndConditions | main.cpp:25-48 | the assembled trajectory meets the end state at T if and only if (a3, a4, a5) solves A x = b |
| QuinticSolver.Jmt | main.cpp:6-55 | the result has six coefficients and meets the start state at t = 0 and the end state at t = T |
| QuinticSolver.JmtUnique | main.cpp:29-48 | a six-coefficient trajectory meets both boundary states if and only if it equals JMT's result |
| QuinticSolver.JmtDocExample | main.cpp:20-22 | JMT([0,10,0], [10,10,0], 1) = [0, 10, 0, 0, 0, 0] |
| QuinticSolver.JmtSecondScenario | helper.h:43-47 | JMT on the second case gives [0, 10, 0, 0, -0.625, 0.3125] exactly |
| QuinticSolver.JmtThirdScenario | helper.h:49-53 | JMT on the third case gives [5, 10, 1, -3, 0.64, -0.0432] exactly |
| QuinticSolver.FixturesMatchAnswers | helper.h:33-60 | every fixture is a valid input and JMT on case i equals answers[i] exactly |
| QuinticSolver.TotalCorrect | main.cpp:62-68 | total_correct is true if and only if close_enough holds for JMT's output on every case |
| QuinticSolver.RunHarness | main.cpp:57-77 | with the fixtures and answers, the run reports success if and only if the tolerance is not negative |
| QuinticSolver.RunMain | main.cpp:57-77 | with close_enough's default tolerance the run always reports the output as incorrect |
| QuinticSolver.RunMainIntended | main.cpp:57-77 | with tolerance 0.01 the run reports the output as correct |
| Helper.CloseEnough | helper.h:17-31 | returns true if and only if the lengths match and every difference is within eps; different lengths give false, two empty vectors give true |
| Helper.NegativeToleranceRejects | helper.h:17-29 | with a negative eps no pair of non-empty equal-length vectors passes |
| Helper.DefaultToleranceRejectsExactMatch | helper.h:17-25 | with the default eps -0.01 every non-empty vector fails against itself |
| Helper.ToleranceSymmetric | helper.h:23-25 | the comparison does not depend on which vector is the target |
| Helper.ToleranceReflexive | helper.h:23-25 | with eps >= 0 every vector passes against itself |
| Helper.CreateTests | helper.h:33-56 | yields the three scenarios in order; each has three-component states and a positive duration |

## Left out

- Console output: the greeting, the verdict messages and the diagnostics of `close_enough` are I/O. `RunMain` returns the verdict instead of printing it.
- The commented-out debug printing in `JMT` is left out.
- The general matrix inverse of the linear-algebra library is not part of this model. It is replaced by the closed-form solve `Solve`, which is proved to be the inverse of `A` for `T != 0`.
- Floating point: every double is a `real`. The exact equalities with `answers` hold over the reals; in doubles they would hold only up to rounding.
- QuinticSolver.Jmt: it requires `T != 0` and at least three components in each state. The source checks neither. With `T = 0` the matrix is singular and the library inverse yields non-finite values, which this model does not capture.
- QuinticSolver.TotalCorrect: it requires at least as many answers as cases. The source indexes `answers[i]` unchecked.
- QuinticSolver.RunHarness: its "success exactly when the tolerance is not negative" holds over the reals. In doubles the second and third scenarios go through a rounding inverse, so a zero tolerance could report failure.
- `close_enough`'s default argument is passed explicitly: `RunMain` passes `DefaultEps` (-0.01).
- One could read the tolerance as a magnitude, so that its sign would not matter. The code compares `fabs(diff)` with `eps` as given, and the model follows the code.

## Findings

| source | as written | input that shows it | evidently intended | confidence | as-written member | corrected member |
|---|---|---|---|---|---|---|
| helper.h:17 | the default tolerance is `-.01`, compared with `fabs(diff) > eps`, so every comparison of equal-length non-empty vectors fails | the first scenario, whose result equals `answers[0]` exactly: `fabs(0) = 0 > -0.01`, so `main` reports "not correct" | a tolerance of `0.01` | high; not executed | QuinticSolver.RunMain | QuinticSolver.RunMainIntended |
