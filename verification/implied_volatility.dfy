/**
 The implied-volatility solver (backend/app/analytics/greeks.py): Brent's method over seven
 variables, for an arbitrary objective on [0.001, 5.0].

 `Solve` is the algorithm as a function of its state; `SolveImpliedVolatility` is the loop and is
 proved to compute it.  The objective is a partial function: that it is defined on the bracket only
 makes every evaluation outside the bracket a proof failure, and so is every division by zero.
 */
module ImpliedVolatility {
  import opened Common

  const LOWEST := 0.001
  const HIGHEST := 5.0
  const MACHINE := 0.000000000000002

  predicate InRange(x: real) {
    LOWEST <= x <= HIGHEST
  }

  /** The objective can be evaluated on the whole bracket, and possibly nowhere else. */
  ghost predicate DefinedOnRange(f: real --> real) {
    forall x :: InRange(x) ==> f.requires(x)
  }

  /** Not both strictly positive and not both strictly negative: a zero or a sign change lies between. */
  predicate Opposite(y1: real, y2: real) {
    !(y1 > 0.0 && y2 > 0.0) && !(y1 < 0.0 && y2 < 0.0)
  }

  /** b is the current estimate, a the previous one, c the other end; d and e are the last two steps. */
  datatype State = State(a: real, b: real, c: real, fa: real, fb: real, fc: real, d: real, e: real)

  /** The end that encloses a root together with b. */
  function Partner(s: State): real {
    if Opposite(s.fb, s.fc) then s.c else s.a
  }

  function Width(s: State): real {
    Abs(Partner(s) - s.b)
  }

  ghost predicate Valid(f: real --> real, s: State) {
    && DefinedOnRange(f)
    && InRange(s.a) && InRange(s.b) && InRange(s.c)
    && s.fa == f(s.a) && s.fb == f(s.b) && s.fc == f(s.c)
    && (Opposite(s.fb, s.fc) || Opposite(s.fb, s.fa))
  }

  function Tolerance(b: real, tol: real): real {
    MACHINE * Abs(b) + 0.5 * tol
  }

  /** The rounding allowance on top of the tolerance asked for: four units in the last place of a volatility of five. */
  const ALLOWANCE := 0.00000000000002

  /** Twice the tolerance at a point of the range is what was asked for, and at most the rounding allowance more. */
  lemma ToleranceIsClose(b: real, tol: real)
    requires InRange(b)
    ensures tol < 2.0 * Tolerance(b, tol) <= tol + ALLOWANCE
    ensures 2.0 * Tolerance(HIGHEST, tol) == tol + ALLOWANCE
  {
  }

  lemma ToleranceAtLeast(b: real, tol: real)
    ensures Tolerance(b, tol) >= 0.5 * tol
  {
  }

  /** Restore the bracket between b and c, with b the better end. */
  function Rebracket(s: State): State {
    var t := if Opposite(s.fb, s.fc) then s else s.(c := s.a, fc := s.fa, d := s.b - s.a, e := s.b - s.a);
    if Abs(t.fc) < Abs(t.fb) then t.(a := t.b, b := t.c, c := t.b, fa := t.fb, fb := t.fc, fc := t.fb) else t
  }

  ghost predicate Bracketed(f: real --> real, s: State) {
    Valid(f, s) && Opposite(s.fb, s.fc) && Abs(s.fb) <= Abs(s.fc)
  }

  predicate Done(s: State, tol: real) {
    Abs(0.5 * (s.c - s.b)) <= Tolerance(s.b, tol) || Abs(s.fb) <= tol
  }

  /** The search ends exactly when the ends are within twice the tolerance or the residual is as small as asked for. */
  lemma EndsExactly(s: State, tol: real)
    ensures Done(s, tol)
            <==> || Max(s.b, s.c) - Min(s.b, s.c) <= 2.0 * Tolerance(s.b, tol)
                 || -tol <= s.fb <= tol
  {
    hide Tolerance;
  }

  /** Numerator and denominator of the secant step. */
  function Chord(s: State, xm: real): (real, real)
    requires s.fa != 0.0
  {
    var ratio := s.fb / s.fa;
    (2.0 * xm * ratio, 1.0 - ratio)
  }

  /** Numerator and denominator of the inverse-quadratic step. */
  function Quadratic(s: State, xm: real): (real, real)
    requires s.fa != 0.0 && s.fc != 0.0
  {
    var ratio, q, r := s.fb / s.fa, s.fa / s.fc, s.fb / s.fc;
    Fraction(ratio, q, q - 1.0, r - 1.0, ratio - 1.0, q - r, 2.0 * xm, s.b - s.a)
  }

  function Fraction(ratio: real, q: real, q1: real, r1: real, s1: real, qr: real, gap: real, back: real): (real, real) {
    (ratio * (gap * q * qr - back * r1), q1 * r1 * s1)
  }

  /** The interpolated step as a fraction with a non-negative numerator. */
  function Interpolation(s: State, xm: real): (pq: (real, real))
    requires s.fa != 0.0 && s.fc != 0.0
    ensures pq.0 >= 0.0
  {
    var (p, q) := if s.a == s.c then Chord(s, xm) else Quadratic(s, xm);
    if p > 0.0 then (p, -q) else (-p, q)
  }

  /** Is the interpolated step short enough to be used? */
  predicate Acceptable(p: real, q: real, xm: real, tol1: real, e: real) {
    2.0 * p < Min(3.0 * xm * q - Abs(tol1 * q), Abs(e * q))
  }

  /** An acceptable step has a denominator, points towards c and stays three quarters of the way inside. */
  lemma AcceptableIsInside(p: real, q: real, xm: real, tol1: real, e: real)
    requires Acceptable(p, q, xm, tol1, e) && p >= 0.0 && tol1 > 0.0
    ensures q != 0.0
    ensures xm > 0.0 ==> 0.0 <= p / q && 2.0 * (p / q) < 3.0 * xm - tol1
    ensures xm < 0.0 ==> p / q <= 0.0 && 2.0 * (p / q) > 3.0 * xm + tol1
    ensures xm != 0.0
  {
    var d := p / q;
    assert d * q == p;
    var bound := if q > 0.0 then 3.0 * xm - tol1 else 3.0 * xm + tol1;
    assert Abs(tol1 * q) == if q > 0.0 then tol1 * q else -(tol1 * q) by {
      if q > 0.0 { MulMonoStrict(0.0, q, tol1); } else { MulMonoStrict(q, 0.0, tol1); }
    }
    assert 2.0 * p < 3.0 * xm * q - Abs(tol1 * q);
    assert bound * q == 3.0 * xm * q - Abs(tol1 * q);
    assert 2.0 * d * q == 2.0 * (d * q);
    assert 2.0 * d * q < bound * q;
    if q > 0.0 {
      if 2.0 * d >= bound { MulMono(bound, 2.0 * d, q); }
      if d < 0.0 { MulMonoStrict(d, 0.0, q); }
    } else {
      if 2.0 * d <= bound { MulMono(2.0 * d, bound, -q); }
      if d > 0.0 { MulMonoStrict(0.0, d, -q); }
    }
  }

  /**
     A step is acceptable exactly if its denominator points it towards c, it is shorter than three quarters of the
     bracket by half the tolerance or more, and it is less than half the step before the last.
     */
  lemma AcceptableExactly(p: real, q: real, xm: real, tol1: real, e: real)
    requires p >= 0.0 && tol1 > 0.0
    ensures Acceptable(p, q, xm, tol1, e)
            <==> && q != 0.0 && (q > 0.0 <==> xm > 0.0)
                 && 2.0 * Abs(p / q) < 3.0 * Abs(xm) - tol1 && 2.0 * Abs(p / q) < Abs(e)
  {
    if q != 0.0 {
      AcceptableByLength(p, q, xm, tol1, e);
      assert Abs(p / q) >= 0.0;
      hide Acceptable;
    } else {
      assert tol1 * q == 0.0 && e * q == 0.0 && 3.0 * xm * q == 0.0;
    }
  }

  /** What is left of the bracket beyond a step in the direction of the denominator. */
  function Room(q: real, xm: real, tol1: real): real {
    if q > 0.0 then 3.0 * xm - tol1 else -3.0 * xm - tol1
  }

  lemma AcceptableByLength(p: real, q: real, xm: real, tol1: real, e: real)
    requires p >= 0.0 && q != 0.0 && tol1 > 0.0
    ensures Acceptable(p, q, xm, tol1, e)
            <==> 2.0 * Abs(p / q) < Room(q, xm, tol1) && 2.0 * Abs(p / q) < Abs(e)
  {
    RoomScaled(xm, q, tol1);
    StepScaled(p, q);
    AbsoluteProduct(e, q);
    var step, k, right, last := 2.0 * Abs(p / q), Abs(q), 3.0 * xm * q - Abs(tol1 * q), Abs(e * q);
    CompareScaled(step, k, 2.0 * p, Room(q, xm, tol1), right);
    CompareScaled(step, k, 2.0 * p, Abs(e), last);
    hide Room, Product;
  }

  lemma StepScaled(p: real, q: real)
    requires p >= 0.0 && q != 0.0
    ensures Product(2.0 * Abs(p / q), Abs(q)) == 2.0 * p
  {
    var d := p / q;
    assert d * q == p;
    if q > 0.0 {
      if d < 0.0 { MulMonoStrict(d, 0.0, q); }
    } else {
      if d > 0.0 { MulMonoStrict(0.0, d, -q); }
    }
    assert Abs(d) * Abs(q) == p;
  }

  lemma AbsoluteProduct(x: real, y: real)
    ensures Product(Abs(x), Abs(y)) == Abs(x * y)
  {
    if x >= 0.0 && y >= 0.0 { MulMono(0.0, x, y); }
    if x < 0.0 && y < 0.0 { MulMono(0.0, -x, -y); }
    if x < 0.0 && y >= 0.0 { MulMono(x, 0.0, y); }
    if x >= 0.0 && y < 0.0 { MulMono(0.0, x, -y); }
  }

  lemma ProductStrict(x: real, y: real, k: real)
    requires x < y && k > 0.0
    ensures Product(x, k) < Product(y, k)
  {
    MulMonoStrict(x, y, k);
  }

  /** x and y scaled by k compare as x and y. */
  lemma CompareScaled(x: real, k: real, xk: real, y: real, yk: real)
    requires k > 0.0 && Product(x, k) == xk && Product(y, k) == yk
    ensures x < y <==> xk < yk
  {
    hide Product;
    if x < y { ProductStrict(x, y, k); }
    if y < x { ProductStrict(y, x, k); }
  }

  lemma RoomScaled(xm: real, q: real, tol1: real)
    requires tol1 > 0.0
    ensures Product(Room(q, xm, tol1), Abs(q)) == 3.0 * xm * q - Abs(tol1 * q)
  {
    AbsoluteProduct(tol1, q);
    if q > 0.0 {
      assert (3.0 * xm - tol1) * q == 3.0 * xm * q - tol1 * q;
    } else {
      assert (-3.0 * xm - tol1) * -q == 3.0 * xm * q - tol1 * -q;
    }
  }

  /** The next step and the step before it. */
  function NextStep(s: State, tol: real): (de: (real, real))
    requires tol >= 0.0 && InRange(s.b) && !Done(s, tol) && Abs(s.fb) <= Abs(s.fc)
  {
    var tol1, xm := Tolerance(s.b, tol), 0.5 * (s.c - s.b);
    if Abs(s.e) >= tol1 && Abs(s.fa) > Abs(s.fb) then
      var (p, q) := Interpolation(s, xm);
      if Acceptable(p, q, xm, tol1, s.e) then
        AcceptableIsInside(p, q, xm, tol1, s.e);
        (p / q, s.d)
      else (xm, xm)
    else (xm, xm)
  }

  /**
     The interpolated step is taken exactly if the one before the last was no shorter than the tolerance, the
     estimate has improved and the step is acceptable; any other step goes to the middle.
     */
  lemma StepExactly(s: State, tol: real)
    requires tol >= 0.0 && InRange(s.b) && !Done(s, tol) && Abs(s.fb) <= Abs(s.fc)
    ensures var tol1, xm := Tolerance(s.b, tol), 0.5 * (s.c - s.b);
            if && Abs(s.e) >= tol1 && Abs(s.fb) < Abs(s.fa)
               && (var (p, q) := Interpolation(s, xm);
                   && q != 0.0 && (q > 0.0 <==> xm > 0.0)
                   && 2.0 * Abs(p / q) < 3.0 * Abs(xm) - tol1 && 2.0 * Abs(p / q) < Abs(s.e))
            then
              var (p, q) := Interpolation(s, xm);
              NextStep(s, tol) == (p / q, s.d)
            else NextStep(s, tol) == (xm, xm)
  {
    var tol1, xm := Tolerance(s.b, tol), 0.5 * (s.c - s.b);
    if Abs(s.e) >= tol1 && Abs(s.fb) < Abs(s.fa) {
      var (p, q) := Interpolation(s, xm);
      hide Interpolation;
      AcceptableExactly(p, q, xm, tol1, s.e);
    }
    hide Acceptable;
  }

  /** How far b moves: at least the tolerance, in the direction of c. */
  function Move(s: State, tol: real): real
    requires tol >= 0.0 && InRange(s.b) && !Done(s, tol) && Abs(s.fb) <= Abs(s.fc)
  {
    var tol1, d := Tolerance(s.b, tol), NextStep(s, tol).0;
    if Abs(d) > tol1 then d else if s.c - s.b < 0.0 then -tol1 else tol1
  }

  /** b moves by at least the tolerance and leaves at least a quarter of the bracket before c. */
  lemma MoveIsInside(s: State, tol: real)
    requires tol >= 0.0 && InRange(s.b) && !Done(s, tol) && Abs(s.fb) <= Abs(s.fc)
    ensures var tol1, m, gap := Tolerance(s.b, tol), Move(s, tol), s.c - s.b;
            && tol1 > 0.0
            && (gap > 0.0 ==> tol1 <= m && 4.0 * m < 3.0 * gap + 2.0 * tol1 && m <= gap - tol1)
            && (gap < 0.0 ==> m <= -tol1 && 4.0 * m > 3.0 * gap - 2.0 * tol1 && m >= gap + tol1)
            && gap != 0.0
  {
    var tol1, xm := Tolerance(s.b, tol), 0.5 * (s.c - s.b);
    if Abs(s.e) >= tol1 && Abs(s.fa) > Abs(s.fb) {
      var (p, q) := Interpolation(s, xm);
      if Acceptable(p, q, xm, tol1, s.e) {
        AcceptableIsInside(p, q, xm, tol1, s.e);
      }
    }
  }

  ghost function Advance(f: real --> real, s: State, tol: real): State
    requires Bracketed(f, s) && tol >= 0.0 && !Done(s, tol)
  {
    MoveIsInside(s, tol);
    var b := s.b + Move(s, tol);
    State(s.b, b, s.c, s.fb, f(b), s.fc, NextStep(s, tol).0, NextStep(s, tol).1)
  }

  lemma RebracketBrackets(f: real --> real, s: State)
    requires Valid(f, s)
    ensures Bracketed(f, Rebracket(s))
    ensures {Rebracket(s).b, Rebracket(s).c} == {s.b, Partner(s)}
    ensures Width(Rebracket(s)) == Width(s)
    ensures Rebracket(s).b == if Abs(f(Partner(s))) < Abs(f(s.b)) then Partner(s) else s.b
  {
  }

  /** Every iteration keeps a bracket inside the previous one, shorter by at least the tolerance. */
  lemma AdvanceShrinks(f: real --> real, s: State, tol: real)
    requires Bracketed(f, s) && tol >= 0.0 && !Done(s, tol)
    ensures var t := Advance(f, s, tol);
            && Valid(f, t)
            && Min(s.b, s.c) <= Min(t.b, Partner(t)) && Max(t.b, Partner(t)) <= Max(s.b, s.c)
            && Width(t) <= Width(s) - Tolerance(s.b, tol)
  {
    MoveIsInside(s, tol);
  }

  /** At most `fuel` iterations; the flag says whether a tolerance test ended them. */
  ghost function Solve(f: real --> real, s: State, tol: real, fuel: nat): (State, bool)
    requires Valid(f, s) && tol >= 0.0
    decreases fuel
  {
    hide Advance, Done, Rebracket, Width;
    RebracketBrackets(f, s);
    if fuel == 0 then (s, false)
    else if Done(Rebracket(s), tol) then (Rebracket(s), true)
    else
      AdvanceShrinks(f, Rebracket(s), tol);
      Solve(f, Advance(f, Rebracket(s), tol), tol, fuel - 1)
  }

  /**
     Whatever the objective: the result still encloses a zero or sign change inside the original
     bracket; ended by a test, the residual or the enclosing interval is within tolerance; ended by
     the iteration limit, the interval has lost half the tolerance in every iteration.
     */
  lemma {:induction false} SolveIsSafe(f: real --> real, s: State, tol: real, fuel: nat)
    requires Valid(f, s) && tol >= 0.0
    ensures var (t, converged) := Solve(f, s, tol, fuel);
            && Valid(f, t)
            && Min(s.b, Partner(s)) <= Min(t.b, Partner(t)) && Max(t.b, Partner(t)) <= Max(s.b, Partner(s))
            && (converged ==> || Abs(f(t.b)) <= tol
                              || Width(t) <= 2.0 * Tolerance(t.b, tol) <= tol + ALLOWANCE)
            && (converged ==> Abs(f(t.b)) <= Abs(f(Partner(t))))
            && (!converged ==> Width(t) <= Width(s) - Times(fuel, 0.5 * tol))
    decreases fuel
  {
    hide Advance, Rebracket, Tolerance;
    RebracketBrackets(f, s);
    ToleranceAtLeast(Rebracket(s).b, tol);
    ToleranceIsClose(Rebracket(s).b, tol);
    if fuel > 0 && !Done(Rebracket(s), tol) {
      AdvanceShrinks(f, Rebracket(s), tol);
      SolveIsSafe(f, Advance(f, Rebracket(s), tol), tol, fuel - 1);
    }
  }

  /** Enough iterations for the width to run out always end in a tolerance test. */
  lemma SolveConverges(f: real --> real, s: State, tol: real, fuel: nat)
    requires Valid(f, s) && tol >= 0.0 && Times(fuel, 0.5 * tol) > HIGHEST - LOWEST
    ensures Solve(f, s, tol, fuel).1
  {
    hide Solve, Tolerance, Times;
    SolveIsSafe(f, s, tol, fuel);
    assert Width(s) <= HIGHEST - LOWEST && Width(Solve(f, s, tol, fuel).0) >= 0.0;
  }

  /** Multiplying an equation through. */
  lemma Scale(x: real, y: real, k: real)
    requires x == y
    ensures x * k == y * k
  {
  }

  /** q is the quotient of x and y. */
  predicate IsRatio(q: real, x: real, y: real) {
    q * y == x
  }

  /**
     Lagrange's formula with its denominators cleared: from b the step leads to the zero of the inverse quadratic
     through three points with values u, v, w, where b lies `ba` after the first and `cb` before the third.
     */
  predicate ToInverseQuadraticZero(u: real, v: real, w: real, cb: real, ba: real, step: real) {
    step * Gaps(u, v, w) == Weights(u, v, w, cb, ba)
  }

  function Gaps(u: real, v: real, w: real): real {
    (u - w) * (v - w) * (v - u)
  }

  function Weights(u: real, v: real, w: real, cb: real, ba: real): real {
    v * (ba * w * (v - w) - cb * u * (u - v))
  }

  /** What the denominators of the step's fraction multiply up to. */
  function Denominators(u: real, w: real): real {
    u * w * w
  }

  lemma Regroup(q1: real, r1: real, s1: real, u: real, w: real)
    ensures q1 * r1 * s1 * Denominators(u, w) == (q1 * w) * (r1 * w) * (s1 * u)
  {
  }

  lemma BottomIsGaps(u: real, v: real, w: real, q1: real, r1: real, s1: real)
    requires IsRatio(q1, u - w, w) && IsRatio(r1, v - w, w) && IsRatio(s1, v - u, u)
    ensures q1 * r1 * s1 * Denominators(u, w) == Gaps(u, v, w)
  {
    Regroup(q1, r1, s1, u, w);
    hide Denominators;
  }

  lemma ScaleRight(u: real, v: real, w: real, cb: real, ba: real, s: real, q: real, r1: real, qr: real)
    requires IsRatio(s, v, u) && IsRatio(q, u, w) && IsRatio(r1, v - w, w) && IsRatio(qr, u - v, w)
    ensures -(s * (cb * q * qr - ba * r1)) * (u * w * w) == v * (ba * w * (v - w) - cb * u * (u - v))
  {
    Scale(s * u, v, cb * q * qr * w * w);
    Scale(q * w, u, v * cb * qr * w);
    Scale(qr * w, u - v, v * cb * u);
    Scale(s * u, v, ba * r1 * w * w);
    Scale(r1 * w, v - w, v * ba * w);
  }

  /** The inverse-quadratic step with its denominators cleared: u, v, w are the values at a, b, c. */
  lemma ClearDenominators(u: real, v: real, w: real, cb: real, ba: real,
                          s: real, q: real, q1: real, r1: real, s1: real, qr: real, step: real)
    requires IsRatio(s, v, u) && IsRatio(q, u, w)
    requires IsRatio(q1, u - w, w) && IsRatio(r1, v - w, w) && IsRatio(s1, v - u, u) && IsRatio(qr, u - v, w)
    requires IsRatio(step, -Fraction(s, q, q1, r1, s1, qr, cb, ba).0, Fraction(s, q, q1, r1, s1, qr, cb, ba).1)
    ensures ToInverseQuadraticZero(u, v, w, cb, ba, step)
  {
    hide Gaps, Weights, Denominators, IsRatio;
    var (top, bottom) := Fraction(s, q, q1, r1, s1, qr, cb, ba);
    BottomIsGaps(u, v, w, q1, r1, s1);
    ScaleRight(u, v, w, cb, ba, s, q, r1, qr);
    RightIsWeights(u, v, w, cb, ba, s * (cb * q * qr - ba * r1));
    hide Fraction;
    CrossMultiply(step, bottom, top, Denominators(u, w), Gaps(u, v, w), Weights(u, v, w, cb, ba));
  }

  lemma RightIsWeights(u: real, v: real, w: real, cb: real, ba: real, top: real)
    requires -top * (u * w * w) == v * (ba * w * (v - w) - cb * u * (u - v))
    ensures -top * Denominators(u, w) == Weights(u, v, w, cb, ba)
  {
  }

  lemma CrossMultiply(step: real, bottom: real, top: real, scale: real, gaps: real, weights: real)
    requires IsRatio(step, -top, bottom) && bottom * scale == gaps && -top * scale == weights
    ensures step * gaps == weights
  {
    assert step * (bottom * scale) == step * bottom * scale;
  }

  /** While only two points are known the step is to the zero of the chord between them. */
  lemma ChordMeaning(s: State, xm: real)
    requires s.fa != 0.0 && s.fc == s.fa && s.a == s.c && 2.0 * xm == s.c - s.b
    ensures var (p, q) := Interpolation(s, xm);
            && (q != 0.0 <==> s.fb != s.fa)
            && (q != 0.0 ==> (p / q) * (s.fa - s.fb) == (s.b - s.a) * s.fb)
  {
    var (p, q) := Interpolation(s, xm);
    var ratio := s.fb / s.fa;
    RatioIsOne(s.fb, s.fa);
    if q != 0.0 {
      var step := p / q;
      assert step * q == p && ratio * s.fa == s.fb;
      Scale(step * (1.0 - ratio), -(2.0 * xm * ratio), s.fa);
      Scale(ratio * s.fa, s.fb, step);
      Scale(ratio * s.fa, s.fb, 2.0 * xm);
    }
  }

  /** With three points it is to the zero of the inverse quadratic through them. */
  lemma QuadraticMeaning(s: State, xm: real)
    requires s.fa != 0.0 && s.fc != 0.0 && s.a != s.c && 2.0 * xm == s.c - s.b
    ensures var (p, q) := Interpolation(s, xm);
            && (q != 0.0 <==> s.fa != s.fc && s.fb != s.fc && s.fb != s.fa)
            && (q != 0.0 ==> ToInverseQuadraticZero(s.fa, s.fb, s.fc, s.c - s.b, s.b - s.a, p / q))
  {
    QuadraticIsFinite(s, xm);
    hide Quadratic, ToInverseQuadraticZero;
    var (p, q) := Interpolation(s, xm);
    if q != 0.0 {
      var step := p / q;
      assert step * q == p;
      assert IsRatio(step, -Quadratic(s, xm).0, Quadratic(s, xm).1);
      QuadraticCleared(s, xm, step);
    }
  }

  lemma RatioIsOne(x: real, y: real)
    requires y != 0.0
    ensures x / y == 1.0 <==> x == y
  {
    assert x / y * y == x;
  }

  lemma FractionIsFinite(ratio: real, q: real, q1: real, r1: real, s1: real, qr: real, gap: real, back: real)
    ensures Fraction(ratio, q, q1, r1, s1, qr, gap, back).1 == 0.0 <==> q1 == 0.0 || r1 == 0.0 || s1 == 0.0
  {
  }

  /** The inverse quadratic exists exactly when the three values differ. */
  lemma QuadraticIsFinite(s: State, xm: real)
    requires s.fa != 0.0 && s.fc != 0.0
    ensures Quadratic(s, xm).1 != 0.0 <==> s.fa != s.fc && s.fb != s.fc && s.fb != s.fa
  {
    RatioIsOne(s.fb, s.fa);
    RatioIsOne(s.fa, s.fc);
    RatioIsOne(s.fb, s.fc);
    var ratio, q, r := s.fb / s.fa, s.fa / s.fc, s.fb / s.fc;
    FractionIsFinite(ratio, q, q - 1.0, r - 1.0, ratio - 1.0, q - r, 2.0 * xm, s.b - s.a);
    hide Fraction;
  }

  lemma QuadraticCleared(s: State, xm: real, step: real)
    requires s.fa != 0.0 && s.fc != 0.0 && 2.0 * xm == s.c - s.b
    requires IsRatio(step, -Quadratic(s, xm).0, Quadratic(s, xm).1)
    ensures ToInverseQuadraticZero(s.fa, s.fb, s.fc, s.c - s.b, s.b - s.a, step)
  {
    hide Fraction, IsRatio, ToInverseQuadraticZero;
    var ratio, q, r := s.fb / s.fa, s.fa / s.fc, s.fb / s.fc;
    Multiplied(s.fb, s.fa);
    Multiplied(s.fa, s.fc);
    Multiplied(s.fb, s.fc);
    RatiosSubtract(q, r, s.fa, s.fb, s.fc);
    ClearDenominators(s.fa, s.fb, s.fc, 2.0 * xm, s.b - s.a, ratio, q, q - 1.0, r - 1.0, ratio - 1.0, q - r, step);
  }

  lemma Multiplied(x: real, y: real)
    requires y != 0.0
    ensures IsRatio(x / y, x, y) && IsRatio(x / y - 1.0, x - y, y)
  {
  }

  lemma RatiosSubtract(q: real, r: real, x: real, z: real, y: real)
    requires IsRatio(q, x, y) && IsRatio(r, z, y)
    ensures IsRatio(q - r, x - z, y)
  {
  }

  // ---------------------------------------------------------------- the loop

  function Start(fa: real, fb: real): State {
    State(LOWEST, HIGHEST, LOWEST, fa, fb, fa, HIGHEST - LOWEST, HIGHEST - LOWEST)
  }

  lemma StartIsValid(f: real --> real, fa: real, fb: real)
    requires DefinedOnRange(f) && fa == f(LOWEST) && fb == f(HIGHEST) && Opposite(fa, fb)
    ensures Valid(f, Start(fa, fb)) && Width(Start(fa, fb)) == HIGHEST - LOWEST
  {
  }

  /** One unfolding of Solve, with the state the loop has after restoring its bracket. */
  lemma SolveUnfolds(f: real --> real, before: State, s: State, tol: real, fuel: nat)
    requires Valid(f, before) && tol >= 0.0 && fuel > 0 && s == Rebracket(before)
    ensures Bracketed(f, s) && InRange(s.b) && Abs(s.fb) <= Abs(s.fc)
    ensures Done(s, tol) ==> Solve(f, before, tol, fuel) == (s, true)
    ensures !Done(s, tol) ==>
              && Valid(f, Advance(f, s, tol)) && InRange(s.b + Move(s, tol))
              && Solve(f, before, tol, fuel) == Solve(f, Advance(f, s, tol), tol, fuel - 1)
  {
    hide Rebracket, Done, Move, NextStep;
    RebracketBrackets(f, before);
    if !Done(s, tol) { AdvanceShrinks(f, s, tol); }
  }

  lemma SolveEnds(f: real --> real, s: State, tol: real)
    requires Valid(f, s) && tol >= 0.0
    ensures Solve(f, s, tol, 0) == (s, false)
  {
  }

  /** The step and the step before it. */
  method ChooseStep(s: State, tol: real, tol1: real, xm: real) returns (d: real, e: real)
    requires tol >= 0.0 && InRange(s.b) && !Done(s, tol) && Abs(s.fb) <= Abs(s.fc)
    requires tol1 == Tolerance(s.b, tol) && xm == 0.5 * (s.c - s.b)
    ensures (d, e) == NextStep(s, tol)
  {
    hide Interpolation;
    if Abs(s.e) >= tol1 && Abs(s.fa) > Abs(s.fb) {
      var (p, q) := Interpolation(s, xm);
      if Acceptable(p, q, xm, tol1, s.e) {
        AcceptableIsInside(p, q, xm, tol1, s.e);
        hide Acceptable;
        return p / q, s.d;
      }
    }
    return xm, xm;
  }

  method Brent(f: real --> real, fLow: real, fHigh: real, tol: real, maxIter: nat)
    returns (b: real)
    requires DefinedOnRange(f) && tol >= 0.0
    requires fLow == f(LOWEST) && fHigh == f(HIGHEST) && Opposite(fLow, fHigh)
    ensures Valid(f, Start(fLow, fHigh)) && b == Solve(f, Start(fLow, fHigh), tol, maxIter).0.b
  {
    hide Solve, Valid, NextStep, Tolerance;
    StartIsValid(f, fLow, fHigh);
    var a, fa, fb := LOWEST, fLow, fHigh;
    b := HIGHEST;
    var c, fc := a, fa;
    var d, e := b - a, b - a;
    var n := 0;
    while n < maxIter
      invariant 0 <= n <= maxIter
      invariant Valid(f, State(a, b, c, fa, fb, fc, d, e))
      invariant Solve(f, State(a, b, c, fa, fb, fc, d, e), tol, maxIter - n)
                == Solve(f, Start(fLow, fHigh), tol, maxIter)
    {
      ghost var before := State(a, b, c, fa, fb, fc, d, e);
      if (fb > 0.0 && fc > 0.0) || (fb < 0.0 && fc < 0.0) {
        c, fc := a, fa;
        d, e := b - a, b - a;
      }
      if Abs(fc) < Abs(fb) {
        a := b;
        b := c;
        c := a;
        fa := fb;
        fb := fc;
        fc := fa;
      }
      ghost var s := State(a, b, c, fa, fb, fc, d, e);
      SolveUnfolds(f, before, s, tol, maxIter - n);

      var tol1 := Tolerance(b, tol);
      var xm := 0.5 * (c - b);
      if Abs(xm) <= tol1 || Abs(fb) <= tol {
        return;
      }
      d, e := ChooseStep(State(a, b, c, fa, fb, fc, d, e), tol, tol1, xm);
      a, fa := b, fb;
      MoveIsInside(s, tol);
      if Abs(d) > tol1 {
        b := b + d;
      } else {
        b := b + if xm < 0.0 then -tol1 else tol1;
      }
      fb := f(b);
      n := n + 1;
    }
    SolveEnds(f, State(a, b, c, fa, fb, fc, d, e), tol);
  }

  // ---------------------------------------------------------------- how many iterations it takes

  /** x doubled k times. */
  ghost function Doubled(x: real, k: nat): real {
    if k == 0 then x else 2.0 * Doubled(x, k - 1)
  }

  lemma {:induction false} DoubledAtLeast(x: real, k: nat)
    requires x >= 0.0
    ensures Doubled(x, k) >= x
  {
    if k > 0 { DoubledAtLeast(x, k - 1); }
  }

  /** How many doublings of half the tolerance the bracket and the last two steps stay below. */
  datatype Size = Size(width: nat, older: nat, newer: nat) {
    /** Iterations that are enough from here. */
    function Budget(): nat {
      older + newer + (width + 1) * (width + 1)
    }
  }

  ghost predicate Fits(s: State, tol: real, z: Size) {
    && Width(s) <= Doubled(0.5 * tol, z.width)
    && Abs(s.e) < Doubled(0.5 * tol, z.older)
    && Abs(s.d) < Doubled(0.5 * tol, z.newer)
    && z.newer <= z.older <= z.newer + 1
  }

  predicate Interpolates(s: State, tol: real)
    requires tol >= 0.0 && InRange(s.b) && !Done(s, tol) && Abs(s.fb) <= Abs(s.fc)
  {
    var tol1, xm := Tolerance(s.b, tol), 0.5 * (s.c - s.b);
    && Abs(s.e) >= tol1 && Abs(s.fa) > Abs(s.fb)
    && var (p, q) := Interpolation(s, xm);
       Acceptable(p, q, xm, tol1, s.e)
  }

  /** An acceptable step is less than half as long as the step before the last. */
  lemma AcceptableIsShort(p: real, q: real, xm: real, tol1: real, e: real)
    requires Acceptable(p, q, xm, tol1, e) && p >= 0.0 && q != 0.0
    ensures 2.0 * Abs(p / q) < Abs(e)
  {
    var d := p / q;
    assert d * q == p;
    if q > 0.0 {
      if 2.0 * Abs(d) >= Abs(e) { Lengths(d, e, q); }
    } else {
      assert -d * -q == p && Abs(e * q) == Abs(e * -q);
      if 2.0 * Abs(d) >= Abs(e) { Lengths(-d, e, -q); }
    }
  }

  lemma Lengths(d: real, e: real, q: real)
    requires q > 0.0 && d * q >= 0.0 && 2.0 * Abs(d) >= Abs(e)
    ensures 2.0 * (d * q) >= Abs(e * q)
  {
    if d < 0.0 { MulMonoStrict(d, 0.0, q); }
    assert 2.0 * d * q == 2.0 * (d * q);
    MulMono(e, 2.0 * d, q);
    MulMono(-2.0 * d, e, q);
  }

  /** The interpolated step, and the step it comes after. */
  lemma InterpolatedStep(s: State, tol: real)
    requires tol >= 0.0 && InRange(s.b) && !Done(s, tol) && Abs(s.fb) <= Abs(s.fc) && Interpolates(s, tol)
    ensures NextStep(s, tol).1 == s.d && 2.0 * Abs(NextStep(s, tol).0) < Abs(s.e)
  {
    var tol1, xm := Tolerance(s.b, tol), 0.5 * (s.c - s.b);
    var (p, q) := Interpolation(s, xm);
    AcceptableIsInside(p, q, xm, tol1, s.e);
    AcceptableIsShort(p, q, xm, tol1, s.e);
    hide Interpolation, Acceptable, Tolerance, Done;
  }

  /** A bracket as long as the tolerance around its estimate is short enough to end the search. */
  lemma ShortIsDone(t: State, tol: real, from: real, tol1: real)
    requires tol >= 0.0 && InRange(from) && tol1 == Tolerance(from, tol) && Abs(t.c - t.b) == tol1
    requires t.b == from || t.c == from
    ensures Done(t, tol)
  {
  }

  /** An interpolated step becomes the newest of the two, or both if the bracket has to be restored. */
  lemma InterpolationHalves(f: real --> real, s: State, tol: real)
    requires Bracketed(f, s) && tol >= 0.0 && !Done(s, tol) && Interpolates(s, tol)
    ensures Valid(f, Advance(f, s, tol))
    ensures var t := Rebracket(Advance(f, s, tol));
            || Done(t, tol)
            || (2.0 * Abs(t.d) < Abs(s.e) && (t.e == s.d || t.e == t.d))
  {
    InterpolatedStep(s, tol);
    AdvanceShrinks(f, s, tol);
    var tol1, moved := Tolerance(s.b, tol), Advance(f, s, tol);
    var t := Rebracket(moved);
    if t.d != moved.d && Abs(moved.d) <= tol1 {
      ShortIsDone(t, tol, s.b, tol1);
    }
    hide Interpolates, NextStep, Tolerance, Done, Opposite;
  }

  /** Any other step halves the bracket, and the steps remembered are as long as the bracket. */
  lemma BisectionHalves(f: real --> real, s: State, tol: real)
    requires Bracketed(f, s) && tol >= 0.0 && !Done(s, tol) && !Interpolates(s, tol)
    ensures Valid(f, Advance(f, s, tol))
    ensures var t := Rebracket(Advance(f, s, tol));
            2.0 * Width(t) == Width(s) && Abs(t.d) == Width(t) && Abs(t.e) == Width(t)
  {
    hide Interpolation, Acceptable;
    MoveIsInside(s, tol);
  }

  lemma UnfinishedHasBudget(s: State, tol: real, z: Size)
    requires tol > 0.0 && !Done(s, tol) && Opposite(s.fb, s.fc) && Fits(s, tol, z)
    ensures z.width > 0 && z.Budget() > 1
  {
    ToleranceAtLeast(s.b, tol);
    hide Tolerance;
    assert z.width > 0;
    assert (z.width + 1) * (z.width + 1) == z.width * z.width + 2 * z.width + 1;
  }

  lemma InterpolationFits(s: State, t: State, tol: real, z: Size) returns (y: Size)
    requires tol > 0.0 && Fits(s, tol, z) && Width(t) <= Width(s) && Abs(s.e) >= 0.5 * tol
    requires 2.0 * Abs(t.d) < Abs(s.e) && (t.e == s.d || t.e == t.d)
    ensures Fits(t, tol, y) && y.Budget() < z.Budget()
  {
    hide Width;
    assert z.older > 0;
    y := if t.e == t.d then Size(z.width, z.older - 1, z.older - 1) else Size(z.width, z.newer, z.older - 1);
  }

  lemma BisectionFits(s: State, t: State, tol: real, z: Size) returns (y: Size)
    requires tol > 0.0 && Fits(s, tol, z) && z.width > 0
    requires 2.0 * Width(t) == Width(s) && Abs(t.d) == Width(t) && Abs(t.e) == Width(t)
    ensures Fits(t, tol, y) && y.Budget() < z.Budget()
  {
    hide Width;
    DoubledAtLeast(0.5 * tol, z.width - 1);
    y := Size(z.width - 1, z.width, z.width);
    assert (z.width + 1) * (z.width + 1) == z.width * z.width + 2 * z.width + 1;
  }

  /** One iteration ends the search or uses up some of the budget. */
  lemma BudgetFalls(f: real --> real, s: State, tol: real, z: Size) returns (y: Size)
    requires Bracketed(f, s) && tol > 0.0 && !Done(s, tol) && Fits(s, tol, z)
    ensures z.Budget() > 1 && Valid(f, Advance(f, s, tol))
    ensures var t := Rebracket(Advance(f, s, tol));
            Done(t, tol) || (Fits(t, tol, y) && y.Budget() < z.Budget())
  {
    UnfinishedHasBudget(s, tol, z);
    ToleranceAtLeast(s.b, tol);
    AdvanceShrinks(f, s, tol);
    RebracketBrackets(f, Advance(f, s, tol));
    var t := Rebracket(Advance(f, s, tol));
    y := z;
    if Interpolates(s, tol) {
      InterpolationHalves(f, s, tol);
      hide Advance, Rebracket, Done, Fits, Width, Interpolation, Acceptable, Tolerance;
      if !Done(t, tol) { y := InterpolationFits(s, t, tol, z); }
    } else {
      BisectionHalves(f, s, tol);
      hide Advance, Rebracket, Done, Fits, Width, Interpolates, Tolerance;
      y := BisectionFits(s, t, tol, z);
    }
  }

  lemma {:induction false} EndsWithinBudget(f: real --> real, s: State, tol: real, z: Size, fuel: nat)
    requires Valid(f, s) && tol > 0.0 && Fits(Rebracket(s), tol, z) && z.Budget() <= fuel
    ensures Solve(f, s, tol, fuel).1
    decreases fuel
  {
    hide Advance, Done, Rebracket, Fits;
    RebracketBrackets(f, s);
    var t := Rebracket(s);
    if !Done(t, tol) {
      AdvanceShrinks(f, t, tol);
      var y := BudgetFalls(f, t, tol, z);
      if !Done(Rebracket(Advance(f, t, tol)), tol) {
        EndsWithinBudget(f, Advance(f, t, tol), tol, y, fuel - 1);
      }
    }
  }

  /**
     The search from the whole range takes a number of iterations quadratic in the logarithm of the
     range over the tolerance: with 2^k halves of the tolerance covering the range, (k + 1)^2 + 2k.
     */
  lemma SolveEndsSoon(f: real --> real, fa: real, fb: real, tol: real, k: nat, fuel: nat)
    requires DefinedOnRange(f) && fa == f(LOWEST) && fb == f(HIGHEST) && Opposite(fa, fb)
    requires tol > 0.0 && HIGHEST - LOWEST < 0.5 * tol * PowerOfTwo(k) && fuel >= (k + 1) * (k + 1) + 2 * k
    ensures Valid(f, Start(fa, fb)) && Solve(f, Start(fa, fb), tol, fuel).1
  {
    StartIsValid(f, fa, fb);
    DoubledIsProduct(0.5 * tol, k);
    EndsWithinBudget(f, Start(fa, fb), tol, Size(k, k, k), fuel);
  }

  lemma {:induction false} DoubledIsProduct(x: real, k: nat)
    ensures Doubled(x, k) == x * PowerOfTwo(k)
  {
    if k > 0 {
      DoubledIsProduct(x, k - 1);
      assert x * (2.0 * PowerOfTwo(k - 1)) == 2.0 * (x * PowerOfTwo(k - 1));
    }
  }

  // ---------------------------------------------------------------- the whole call

  datatype OptionType = Call | Put

  datatype Reason = NoPrice | Expired | BadInputs | BelowIntrinsic | VegaNearZero | NotBracketed

  datatype Solution = Solved(iv: real) | Unsolved(reason: Reason)

  /** The arguments; `discount` and `referenceVega` are the values of the transcendental functions involved. */
  datatype Quote = Quote(marketPrice: real, forward: real, strike: real, tYears: real, optionType: OptionType,
                         discount: real, referenceVega: real)

  function Intrinsic(q: Quote): real {
    q.discount * Max(0.0, if q.optionType.Call? then q.forward - q.strike else q.strike - q.forward)
  }

  /** The inputs rejected before the search, in the order of the tests. */
  function Rejected(q: Quote): Option<Reason> {
    if q.marketPrice <= 0.0 then Some(NoPrice)
    else if q.tYears <= 0.0 then Some(Expired)
    else if q.forward <= 0.0 || q.strike <= 0.0 then Some(BadInputs)
    else if q.marketPrice < Intrinsic(q) - 0.0001 then Some(BelowIntrinsic)
    else if q.referenceVega < 0.00001 then Some(VegaNearZero)
    else None
  }

  /** The inputs that reach the search: a price no lower than the discounted payoff, and a live option. */
  lemma SearchedExactly(q: Quote)
    requires q.discount >= 0.0
    ensures Rejected(q).None?
            <==> && q.marketPrice > 0.0 && q.tYears > 0.0 && q.forward > 0.0 && q.strike > 0.0
                 && q.marketPrice + 0.0001 >= q.discount * (if q.optionType.Call? then q.forward - q.strike
                                                            else q.strike - q.forward)
                 && q.referenceVega >= 0.00001
    ensures Rejected(q) == Some(NoPrice) <==> q.marketPrice <= 0.0
    ensures Rejected(q) == Some(Expired) <==> q.marketPrice > 0.0 >= q.tYears
    ensures Rejected(q) == Some(BadInputs)
            <==> q.marketPrice > 0.0 && q.tYears > 0.0 && !(q.forward > 0.0 && q.strike > 0.0)
    ensures Rejected(q) == Some(VegaNearZero) ==> q.referenceVega < 0.00001
    ensures Rejected(q) != Some(NotBracketed)
  {
    var payoff := if q.optionType.Call? then q.forward - q.strike else q.strike - q.forward;
    if payoff < 0.0 { ProductSign(payoff, q.discount); }
  }

  /** What the search promises about its answer x. */
  ghost predicate Encloses(f: real --> real, x: real, tol: real, maxIter: nat)
    requires DefinedOnRange(f)
  {
    && 0.001 <= x <= 5.0
    && exists other :: && InRange(other) && Opposite(f(x), f(other))
                       && (|| Abs(f(x)) <= tol
                           || Abs(other - x) <= tol + 0.00000000000002
                           || Abs(other - x) <= 4.999 - maxIter as real * (0.5 * tol))
  }

  /**
     The solver.  A solved volatility is in range, and is one of: an end of the range whose residual is
     below 0.05 when both ends lie strictly on the same side; a point with residual within tolerance; one
     end of an interval within tolerance that encloses a zero or sign change; or, at the iteration limit,
     one end of an enclosing interval.
     */
  method SolveImpliedVolatility(q: Quote, f: real --> real, tol: real, maxIter: nat) returns (r: Solution)
    requires DefinedOnRange(f) && tol >= 0.0
    ensures match Rejected(q)
            case Some(reason) => r == Unsolved(reason)
            case None =>
              if Opposite(f(0.001), f(5.0)) then r.Solved? && Encloses(f, r.iv, tol, maxIter)
              else if Abs(f(0.001)) < 0.05 then r == Solved(0.001)
              else if Abs(f(5.0)) < 0.05 then r == Solved(5.0)
              else r == Unsolved(NotBracketed)
  {
    if q.marketPrice <= 0.0 { return Unsolved(NoPrice); }
    if q.tYears <= 0.0 { return Unsolved(Expired); }
    if q.forward <= 0.0 || q.strike <= 0.0 { return Unsolved(BadInputs); }
    if q.marketPrice < Intrinsic(q) - 0.0001 { return Unsolved(BelowIntrinsic); }
    if q.referenceVega < 0.00001 { return Unsolved(VegaNearZero); }

    var fa, fb := f(LOWEST), f(HIGHEST);
    SignOfProduct(fa, fb);
    if fa * fb > 0.0 {
      if Abs(fa) < 0.05 { return Solved(LOWEST); }
      if Abs(fb) < 0.05 { return Solved(HIGHEST); }
      return Unsolved(NotBracketed);
    }
    var b := Brent(f, fa, fb, tol, maxIter);
    ResultEncloses(f, fa, fb, tol, maxIter);
    return Solved(b);
  }

  lemma PartnerIsOpposite(f: real --> real, s: State)
    requires Valid(f, s)
    ensures InRange(s.b) && InRange(Partner(s)) && Opposite(f(s.b), f(Partner(s)))
  {
  }

  lemma ResultEncloses(f: real --> real, fa: real, fb: real, tol: real, maxIter: nat)
    requires DefinedOnRange(f) && fa == f(LOWEST) && fb == f(HIGHEST) && Opposite(fa, fb) && tol >= 0.0
    ensures Valid(f, Start(fa, fb)) && Encloses(f, Solve(f, Start(fa, fb), tol, maxIter).0.b, tol, maxIter)
  {
    hide Solve, Tolerance, Times;
    StartIsValid(f, fa, fb);
    SolveIsSafe(f, Start(fa, fb), tol, maxIter);
    var t := Solve(f, Start(fa, fb), tol, maxIter).0;
    TimesIsProduct(maxIter, 0.5 * tol);
    PartnerIsOpposite(f, t);
    hide Opposite, Partner, Valid;
  }

  lemma SignOfProduct(x: real, y: real)
    ensures x * y > 0.0 <==> !Opposite(x, y)
  {
    if x > 0.0 && y > 0.0 { MulMonoStrict(0.0, x, y); }
    if x < 0.0 && y < 0.0 { MulMonoStrict(0.0, -x, -y); }
    if x <= 0.0 && y >= 0.0 { MulMono(x, 0.0, y); }
    if x >= 0.0 && y <= 0.0 { MulMono(0.0, x, -y); }
  }
}
