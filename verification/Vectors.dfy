/** Cosine similarity and the hand-written Newton square root of the retriever. */
module Vectors {
  import opened Arithmetic

  type Vector = seq<real>

  /** The dot product of the first n components. */
  function Dot(a: Vector, b: Vector, n: nat): real
    requires n <= |a| && n <= |b|
  {
    if n == 0 then 0.0 else Dot(a, b, n - 1) + a[n - 1] * b[n - 1]
  }

  function Shared(a: Vector, b: Vector): nat {
    if |a| < |b| then |a| else |b|
  }

  // ---------------------------------------------------------------- Newton's square root

  function NewtonStep(x: real, z: real): real
    requires z != 0.0
  {
    z - (z * z - x) / (2.0 * z)
  }

  /** The relative residual z²/x − 1. */
  function Residual(x: real, z: real): real
    requires x != 0.0
  {
    z * z / x - 1.0
  }

  lemma NewtonStepDoubled(x: real, z: real)
    requires z != 0.0
    ensures NewtonStep(x, z) * (2.0 * z) == z * z + x
  {
    var c := (z * z - x) / (2.0 * z);
    assert c * (2.0 * z) == z * z - x;
    assert (z - c) * (2.0 * z) == z * (2.0 * z) - c * (2.0 * z);
  }

  lemma PositiveFactor(d: real, a: real)
    requires d > 0.0 && a * d > 0.0
    ensures a > 0.0
  {
  }

  lemma NonNegativeFactor(d: real, a: real)
    requires d > 0.0 && a * d >= 0.0
    ensures a >= 0.0
  {
  }

  lemma SquarePositive(x: real)
    ensures x * x >= 0.0
  {
  }

  lemma SquareOfProduct(y: real, z: real)
    ensures (y * (2.0 * z)) * (y * (2.0 * z)) == (y * y) * (4.0 * (z * z))
  {
  }

  lemma SquareOfSum(s: real, x: real)
    ensures (s + x) * (s + x) == (s - x) * (s - x) + 4.0 * s * x
  {
  }

  /** One step keeps the iterate positive and squares the error: 4z²(y² − x) = (z² − x)². */
  lemma NewtonStepSquaresError(x: real, z: real)
    requires x > 0.0 && z > 0.0
    ensures var y := NewtonStep(x, z);
            y > 0.0 && y * y >= x && (y * y - x) * (4.0 * (z * z)) == (z * z - x) * (z * z - x)
  {
    var y, s := NewtonStep(x, z), z * z;
    assert s > 0.0;
    NewtonStepDoubled(x, z);
    PositiveFactor(2.0 * z, y);
    var t := y * y;
    assert t * (4.0 * s) == (s + x) * (s + x) by { SquareOfProduct(y, z); }
    SquareOfSum(s, x);
    assert (t - x) * (4.0 * s) == t * (4.0 * s) - 4.0 * s * x;
    assert (t - x) * (4.0 * s) == (s - x) * (s - x);
    SquarePositive(s - x);
    NonNegativeFactor(4.0 * s, t - x);
  }

  lemma ResidualOf(x: real, z: real)
    requires x > 0.0
    ensures z * z == x * (1.0 + Residual(x, z))
    ensures z * z - x == x * Residual(x, z)
  {
    assert z * z / x * x == z * z;
  }

  /** The relative residual q follows q' = q²/(4(1 + q)). */
  lemma NewtonResidualRecurrence(x: real, z: real)
    requires x > 0.0 && z > 0.0
    ensures 1.0 + Residual(x, z) > 0.0
    ensures var q := Residual(x, z); Residual(x, NewtonStep(x, z)) == q * q / (4.0 * (1.0 + q))
  {
    hide Residual, NewtonStep;
    var y := NewtonStep(x, z);
    var q, r := Residual(x, z), Residual(x, y);
    ResidualOf(x, z);
    ResidualOf(x, y);
    NewtonStepSquaresError(x, z);
    assert z * z > 0.0;
    ResidualAlgebra(x, z * z, y * y, q, r);
  }

  lemma ResidualAlgebra(x: real, s: real, t: real, q: real, r: real)
    requires x > 0.0 && s > 0.0 && s == x * (1.0 + q) && s - x == x * q && t - x == x * r
    requires (t - x) * (4.0 * s) == (s - x) * (s - x)
    ensures 1.0 + q > 0.0 && r == q * q / (4.0 * (1.0 + q))
  {
    var u := 1.0 + q;
    PositiveFactor(x, u);
    Rearrange(x, r, u, q);
    Cancel(x, x * (r * (4.0 * u)), x * (q * q));
    Cancel(x, r * (4.0 * u), q * q);
    Quotient(r, 4.0 * u, q * q);
  }

  lemma QuotientTimes(n: real, d: real)
    requires d != 0.0
    ensures d * (n / d) == n
  {
  }

  lemma Rearrange(x: real, r: real, u: real, q: real)
    ensures (x * r) * (4.0 * (x * u)) == x * (x * (r * (4.0 * u)))
    ensures (x * q) * (x * q) == x * (x * (q * q))
  {
  }

  /** For negative x, which no sum of squares is, the loop can divide by zero: the first step from -1 is 0. */
  lemma NegativeStepsToZero()
    ensures NewtonStep(-1.0, -1.0) == 0.0
  {
  }

  /** The n-th iterate when Newton's method starts, as the code does, at x itself. */
  function NewtonIterate(x: real, n: nat): (z: real)
    requires x > 0.0
    ensures z > 0.0
  {
    if n == 0 then x else
      var previous := NewtonIterate(x, n - 1);
      NewtonStepSquaresError(x, previous);
      NewtonStep(x, previous)
  }

  /** From the first step on the iterates lie on or above the root and never increase. */
  lemma {:induction false} NewtonDescends(x: real, n: nat)
    requires x > 0.0 && n >= 1
    ensures NewtonIterate(x, n) * NewtonIterate(x, n) >= x
    ensures NewtonIterate(x, n + 1) <= NewtonIterate(x, n)
  {
    hide NewtonStep;
    NewtonStepSquaresError(x, NewtonIterate(x, n - 1));
    StepDescends(x, NewtonIterate(x, n));
  }

  lemma StepDescends(x: real, z: real)
    requires z > 0.0 && z * z >= x
    ensures NewtonStep(x, z) <= z
  {
    hide NewtonStep;
    NewtonStepDoubled(x, z);
    HalfSum(x, z, NewtonStep(x, z));
  }

  lemma HalfSum(x: real, z: real, y: real)
    requires z > 0.0 && z * z >= x && y * (2.0 * z) == z * z + x
    ensures y <= z
  {
    assert (z - y) * (2.0 * z) == 2.0 * (z * z) - y * (2.0 * z);
    NonNegativeFactor(2.0 * z, z - y);
  }

  lemma SquareMonotone(a: real, b: real)
    requires 0.0 <= a <= b
    ensures a * a <= b * b
  {
  }

  /** When the error is at most 4rx, the next error is at most 4r²x. */
  lemma NewtonStepQuadratic(x: real, z: real, r: real)
    requires x > 0.0 && z > 0.0 && r >= 0.0 && x <= z * z <= x + 4.0 * (r * x)
    ensures NewtonStep(x, z) * NewtonStep(x, z) <= x + 4.0 * ((r * r) * x)
  {
    NewtonStepSquaresError(x, z);
    var s, d := z * z, NewtonStep(x, z) * NewtonStep(x, z) - x;
    assert d * (4.0 * x) <= d * (4.0 * s) by { assert d * (s - x) >= 0.0; }
    SquareMonotone(s - x, 4.0 * (r * x));
    Expand(r, x);
    var slack := 4.0 * ((r * r) * x) - d;
    assert slack * (4.0 * x) == (4.0 * ((r * r) * x)) * (4.0 * x) - d * (4.0 * x);
    NonNegativeFactor(4.0 * x, slack);
  }

  lemma Expand(r: real, x: real)
    ensures (4.0 * (r * x)) * (4.0 * (r * x)) == (4.0 * ((r * r) * x)) * (4.0 * x)
  {
  }

  /** r squared `times` times over: r to the power 2^times. */
  function RepeatedSquare(r: real, times: nat): real {
    if times == 0 then r else RepeatedSquare(r, times - 1) * RepeatedSquare(r, times - 1)
  }

  /** The starting rate: the first step leaves exactly the error (x − 1)²/4, which is 4·rate·x. */
  function StartingRate(x: real): (r: real)
    requires x > 0.0
    ensures r >= 0.0 && 16.0 * (r * x) == (x - 1.0) * (x - 1.0)
  {
    SquarePositive(x - 1.0);
    var n, d := (x - 1.0) * (x - 1.0), 16.0 * x;
    assert n / d * d == n;
    n / d
  }

  lemma NewtonFirstStep(x: real)
    requires x > 0.0
    ensures NewtonIterate(x, 1) * NewtonIterate(x, 1) == x + 4.0 * (StartingRate(x) * x)
  {
    var y := NewtonStep(x, x);
    assert NewtonIterate(x, 0) == x;
    assert NewtonIterate(x, 1) == y;
    NewtonStepDoubled(x, x);
    assert x * (2.0 * y) == x * (x + 1.0);
    Cancel(x, 2.0 * y, x + 1.0);
    assert 4.0 * (y * y) == (x + 1.0) * (x + 1.0);
  }

  ghost predicate Within(x: real, z: real, r: real) {
    x <= z * z <= x + 4.0 * (r * x)
  }

  lemma NewtonKeepsWithin(x: real, z: real, r: real, y: real, r': real)
    requires x > 0.0 && z > 0.0 && r >= 0.0 && Within(x, z, r)
    requires y == NewtonStep(x, z) && r' == r * r
    ensures Within(x, y, r') && r' >= 0.0
  {
    NewtonStepQuadratic(x, z, r);
    NewtonStepSquaresError(x, z);
    SquarePositive(r);
  }

  lemma {:induction false} NewtonWithin(x: real, r: real, n: nat)
    requires x > 0.0 && r >= 0.0 && n >= 1 && Within(x, NewtonIterate(x, 1), r)
    ensures Within(x, NewtonIterate(x, n), RepeatedSquare(r, n - 1)) && RepeatedSquare(r, n - 1) >= 0.0
    decreases n
  {
    if n > 1 {
      NewtonWithin(x, r, n - 1);
      NewtonKeepsWithin(x, NewtonIterate(x, n - 1), RepeatedSquare(r, n - 2),
                        NewtonIterate(x, n), RepeatedSquare(r, n - 1));
    }
  }

  lemma RateAtStart(x: real)
    requires x > 0.0
    ensures RepeatedSquare(StartingRate(x), 0) == StartingRate(x)
  {
  }

  /** Quadratic convergence, for every positive x and every number of steps. */
  lemma NewtonConverges(x: real, n: nat)
    requires x > 0.0 && n >= 1
    ensures var z := NewtonIterate(x, n);
            x <= z * z <= x + 4.0 * (RepeatedSquare(StartingRate(x), n - 1) * x)
  {
    hide NewtonIterate, RepeatedSquare;
    NewtonFirstStep(x);
    RateAtStart(x);
    SignOfProduct(StartingRate(x), x);
    NewtonWithin(x, StartingRate(x), n);
  }

  function PowerOfFour(n: nat): (p: real)
    ensures p >= 1.0
  {
    if n == 0 then 1.0 else 4.0 * PowerOfFour(n - 1)
  }

  lemma NewtonStepQuartersError(x: real, z: real)
    requires x > 0.0 && z > 0.0 && z * z >= x
    ensures 4.0 * (NewtonStep(x, z) * NewtonStep(x, z) - x) <= z * z - x
  {
    NewtonStepSquaresError(x, z);
    var s, d := z * z, NewtonStep(x, z) * NewtonStep(x, z) - x;
    assert (s - x) * (s - x) <= (s - x) * s by { assert (s - x) * x >= 0.0; }
    assert ((s - x) - 4.0 * d) * s == (s - x) * s - d * (4.0 * s);
    NonNegativeFactor(s, (s - x) - 4.0 * d);
  }

  ghost predicate ErrorTimes(x: real, z: real, p: real, bound: real) {
    0.0 <= p * (z * z - x) <= bound
  }

  lemma NewtonStepQuarters(x: real, z: real, y: real, p: real, bound: real)
    requires x > 0.0 && z > 0.0 && y == NewtonStep(x, z) && p >= 1.0
    requires z * z >= x && ErrorTimes(x, z, p, bound)
    ensures ErrorTimes(x, y, 4.0 * p, bound)
  {
    NewtonStepQuartersError(x, z);
    NewtonStepSquaresError(x, z);
    ScaledError(p, z * z - x, y * y - x, bound);
  }

  lemma NewtonFirstError(x: real)
    requires x > 0.0
    ensures ErrorTimes(x, NewtonIterate(x, 1), 4.0, (x - 1.0) * (x - 1.0))
  {
    NewtonFirstStep(x);
    SquarePositive(x - 1.0);
  }

  /** Far from 1 the method still gains two bits a step: after n steps 0 <= 4ⁿ(z² − x) <= (x − 1)². */
  lemma {:induction false} NewtonErrorGlobal(x: real, n: nat)
    requires x > 0.0 && n >= 1
    ensures ErrorTimes(x, NewtonIterate(x, n), PowerOfFour(n), (x - 1.0) * (x - 1.0))
    decreases n
  {
    hide NewtonStep, ErrorTimes;
    if n == 1 {
      NewtonFirstError(x);
      assert PowerOfFour(1) == 4.0 * PowerOfFour(0) == 4.0;
    } else {
      NewtonErrorGlobal(x, n - 1);
      NewtonDescends(x, n - 1);
      NewtonStepQuarters(x, NewtonIterate(x, n - 1), NewtonIterate(x, n), PowerOfFour(n - 1), (x - 1.0) * (x - 1.0));
    }
  }

  lemma ScaledError(p: real, e: real, f: real, bound: real)
    requires p >= 1.0 && 0.0 <= 4.0 * f <= e && p * e <= bound
    ensures 0.0 <= (4.0 * p) * f <= bound
  {
    assert p * (4.0 * f) <= p * e;
  }

  lemma SignOfProduct(u: real, v: real)
    requires u >= 0.0 && v >= 0.0
    ensures u * v >= 0.0
  {
  }

  lemma NearOneRate(x: real)
    requires 0.25 <= x <= 4.0
    ensures StartingRate(x) <= 0.140625
  {
    SignOfProduct(4.0 * x - 1.0, 4.0 - x);
    assert (4.0 * x - 1.0) * (4.0 - x) == 9.0 * x - 4.0 * ((x - 1.0) * (x - 1.0));
    var r := StartingRate(x);
    assert 16.0 * ((0.140625 - r) * x) == 2.25 * x - (x - 1.0) * (x - 1.0);
    NonNegativeFactor(x, 0.140625 - r);
  }

  lemma {:induction false} RepeatedSquareMonotone(a: real, b: real, n: nat)
    requires 0.0 <= a <= b
    ensures 0.0 <= RepeatedSquare(a, n) <= RepeatedSquare(b, n)
  {
    if n > 0 {
      RepeatedSquareMonotone(a, b, n - 1);
      SquareMonotone(RepeatedSquare(a, n - 1), RepeatedSquare(b, n - 1));
      SquarePositive(RepeatedSquare(a, n - 1));
    }
  }

  lemma RepeatedSquareStep(a: real, n: nat, bound: real, next: real)
    requires 0.0 <= RepeatedSquare(a, n) <= bound && bound * bound <= next
    ensures 0.0 <= RepeatedSquare(a, n + 1) <= next
  {
    SquareMonotone(RepeatedSquare(a, n), bound);
    SquarePositive(RepeatedSquare(a, n));
  }

  /** The eight steps of the code are accurate to 30 decimal digits on the range of normalised vectors. */
  lemma NewtonEightSteps(x: real)
    requires 0.25 <= x <= 4.0
    ensures var z := NewtonIterate(x, 8);
            0.0 <= z * z - x <= x * 0.000000000000000000000000000001
  {
    NewtonConverges(x, 8);
    NearOneRate(x);
    var r := StartingRate(x);
    RateAfterSevenSquarings(r);
    SignOfProduct(0.000000000000000000000000000001 - 4.0 * RepeatedSquare(r, 7), x);
  }

  lemma RateAfterSevenSquarings(r: real)
    requires 0.0 <= r <= 0.140625
    ensures 0.0 <= 4.0 * RepeatedSquare(r, 7) <= 0.000000000000000000000000000001
  {
    RepeatedSquareStep(r, 0, 0.140625, 0.02);
    RepeatedSquareStep(r, 1, 0.02, 0.0004);
    RepeatedSquareStep(r, 2, 0.0004, 0.00000016);
    RepeatedSquareStep(r, 3, 0.00000016, 0.00000000000003);
    RepeatedSquareStep(r, 4, 0.00000000000003, 0.000000000000000000000000001);
    RepeatedSquareStep(r, 5, 0.000000000000000000000000001, 0.000000000000000000000000000000001);
    RepeatedSquareStep(r, 6, 0.000000000000000000000000000000001, 0.0000000000000000000000000000000001);
  }

  lemma NewtonStart(x: real)
    requires x > 0.0
    ensures NewtonIterate(x, 0) == x
  {
  }

  lemma NewtonNext(x: real, n: nat)
    requires x > 0.0
    ensures var z := NewtonIterate(x, n); NewtonIterate(x, n + 1) == z - (z * z - x) / (2.0 * z)
  {
  }

  /** The retriever's square root: eight Newton steps from x, with 0 answered at once. */
  method NewtonSqrt(x: real) returns (z: real)
    requires x >= 0.0
    ensures x == 0.0 ==> z == 0.0
    ensures x > 0.0 ==> z == NewtonIterate(x, 8) && z > 0.0 && z * z >= x
  {
    hide NewtonIterate;
    z := x;
    if z == 0.0 { return 0.0; }
    NewtonStart(x);
    for i := 0 to 8
      invariant z == NewtonIterate(x, i)
    {
      NewtonNext(x, i);
      z := z - (z * z - x) / (2.0 * z);
    }
    NewtonDescends(x, 8);
  }

  // ---------------------------------------------------------------- cosine

  lemma DotOneMore(a: Vector, b: Vector, n: nat)
    requires n < |a| && n < |b|
    ensures Dot(a, b, n + 1) == Dot(a, b, n) + a[n] * b[n]
  {
  }

  /** Σ (s·aᵢ − t·bᵢ)² is not negative. */
  lemma {:induction false} QuadraticForm(a: Vector, b: Vector, n: nat, s: real, t: real)
    requires n <= |a| && n <= |b|
    ensures s * s * Dot(a, a, n) - 2.0 * s * t * Dot(a, b, n) + t * t * Dot(b, b, n) >= 0.0
  {
    if n == 0 {
      assert s * s * 0.0 == 0.0 && 2.0 * s * t * 0.0 == 0.0 && t * t * 0.0 == 0.0;
    } else {
      QuadraticForm(a, b, n - 1, s, t);
      hide Dot;
      DotOneMore(a, a, n - 1);
      DotOneMore(a, b, n - 1);
      DotOneMore(b, b, n - 1);
      QuadraticTerm(a[n - 1], b[n - 1], s, t, Dot(a, a, n - 1), Dot(a, b, n - 1), Dot(b, b, n - 1));
    }
  }

  lemma QuadraticTerm(u: real, v: real, s: real, t: real, aa: real, ab: real, bb: real)
    requires s * s * aa - 2.0 * s * t * ab + t * t * bb >= 0.0
    ensures s * s * (aa + u * u) - 2.0 * s * t * (ab + u * v) + t * t * (bb + v * v) >= 0.0
  {
    var q := s * u - t * v;
    SquarePositive(q);
    SquareOfDifference(s * u, t * v);
    Regroup(s, s, u, u);
    Regroup(t, t, v, v);
    Regroup(s, t, u, v);
    Distribute(s * s, aa, u * u);
    Distribute(2.0 * s * t, ab, u * v);
    Distribute(t * t, bb, v * v);
  }

  lemma SquareOfDifference(p: real, q: real)
    ensures (p - q) * (p - q) == p * p - 2.0 * (p * q) + q * q
  {
  }

  lemma Regroup(s: real, t: real, u: real, v: real)
    ensures (s * u) * (t * v) == s * t * (u * v)
    ensures 2.0 * (s * t * (u * v)) == 2.0 * s * t * (u * v)
  {
  }

  lemma {:induction false} NormNonNegative(a: Vector, n: nat)
    requires n <= |a|
    ensures Dot(a, a, n) >= 0.0
  {
    if n > 0 { NormNonNegative(a, n - 1); }
  }

  lemma CauchySchwarz(a: Vector, b: Vector, n: nat)
    requires n <= |a| && n <= |b|
    ensures Dot(a, b, n) * Dot(a, b, n) <= Dot(a, a, n) * Dot(b, b, n)
  {
    hide Dot;
    NormNonNegative(a, n);
    NormNonNegative(b, n);
    if Dot(a, a, n) > 0.0 {
      QuadraticForm(a, b, n, Dot(a, b, n), Dot(a, a, n));
      Discriminant(Dot(a, a, n), Dot(a, b, n), Dot(b, b, n));
    } else if Dot(b, b, n) > 0.0 {
      DotCommutes(a, b, n);
      QuadraticForm(b, a, n, Dot(a, b, n), Dot(b, b, n));
      Discriminant(Dot(b, b, n), Dot(a, b, n), Dot(a, a, n));
    } else {
      QuadraticForm(a, b, n, 1.0, 1.0);
      QuadraticForm(a, b, n, 1.0, -1.0);
      assert Dot(a, b, n) == 0.0;
    }
  }

  lemma {:induction false} DotCommutes(a: Vector, b: Vector, n: nat)
    requires n <= |a| && n <= |b|
    ensures Dot(a, b, n) == Dot(b, a, n)
  {
    if n > 0 { DotCommutes(a, b, n - 1); }
  }

  lemma Discriminant(aa: real, ab: real, bb: real)
    requires aa > 0.0 && ab * ab * aa - 2.0 * ab * aa * ab + aa * aa * bb >= 0.0
    ensures ab * ab <= aa * bb
  {
    assert ab * ab * aa - 2.0 * ab * aa * ab + aa * aa * bb == (aa * bb - ab * ab) * aa;
    NonNegativeFactor(aa, aa * bb - ab * ab);
  }

  /** Dividing the dot product by any two upper approximations of the norms stays in [-1, 1]. */
  lemma CosineBounded(a: Vector, b: Vector, n: nat, ra: real, rb: real)
    requires n <= |a| && n <= |b| && Dot(a, a, n) > 0.0 && Dot(b, b, n) > 0.0
    requires ra > 0.0 && rb > 0.0 && ra * ra >= Dot(a, a, n) && rb * rb >= Dot(b, b, n)
    ensures ra * rb > 0.0 && -1.0 <= Dot(a, b, n) / (ra * rb) <= 1.0
  {
    CauchySchwarz(a, b, n);
    CosineFromNorms(Dot(a, b, n), Dot(a, a, n), Dot(b, b, n), ra, rb);
  }

  lemma CosineFromNorms(ab: real, aa: real, bb: real, ra: real, rb: real)
    requires aa > 0.0 && bb > 0.0 && ra > 0.0 && rb > 0.0
    requires ab * ab <= aa * bb && ra * ra >= aa && rb * rb >= bb
    ensures ra * rb > 0.0 && -1.0 <= ab / (ra * rb) <= 1.0
  {
    var d := ra * rb;
    ProductMonotone(aa, ra * ra, bb, rb * rb);
    Regroup(ra, ra, rb, rb);
    AbsoluteFromSquares(ab, d);
    RatioBounded(ab, d);
  }

  lemma ProductMonotone(a: real, b: real, c: real, d: real)
    requires 0.0 <= a <= b && 0.0 <= c <= d
    ensures a * c <= b * d
  {
    SignOfProduct(b - a, c);
    SignOfProduct(b, d - c);
    Distribute(c, b - a, a);
    Distribute(b, d - c, c);
  }

  lemma AbsoluteFromSquares(u: real, d: real)
    requires d > 0.0 && u * u <= d * d
    ensures -d <= u <= d
  {
    assert (d - u) * (d + u) == d * d - u * u;
    if u > d {
      SignOfStrictProduct(u - d, d + u);
    } else if u < -d {
      SignOfStrictProduct(d - u, -d - u);
    }
  }

  lemma SignOfStrictProduct(u: real, v: real)
    requires u > 0.0 && v > 0.0
    ensures u * v > 0.0
  {
  }

  lemma RatioBounded(u: real, d: real)
    requires d > 0.0 && -d <= u <= d
    ensures -1.0 <= u / d <= 1.0
  {
    assert u / d * d == u;
    NonNegativeFactor(d, u / d + 1.0);
    NonNegativeFactor(d, 1.0 - u / d);
  }

  /** The three sums accumulated over the shared prefix of the two vectors. */
  method Accumulate(a: Vector, b: Vector, n: nat) returns (dot: real, na: real, nb: real)
    requires n <= |a| && n <= |b|
    ensures dot == Dot(a, b, n) && na == Dot(a, a, n) && nb == Dot(b, b, n)
    ensures na >= 0.0 && nb >= 0.0
  {
    dot, na, nb := 0.0, 0.0, 0.0;
    for i := 0 to n
      invariant dot == Dot(a, b, i) && na == Dot(a, a, i) && nb == Dot(b, b, i)
    {
      dot := dot + a[i] * b[i];
      na := na + a[i] * a[i];
      nb := nb + b[i] * b[i];
    }
    NormNonNegative(a, n);
    NormNonNegative(b, n);
  }

  lemma NoComponents(a: Vector, b: Vector)
    ensures Dot(a, b, 0) == 0.0
  {
  }

  function Ratio(n: real, d: real): real
    requires d != 0.0
  {
    n / d
  }

  /** The dot product over the Newton roots of both norms; 0 when a norm vanishes. */
  function NewtonSimilarity(a: Vector, b: Vector): real {
    var n := Shared(a, b);
    var na, nb := Dot(a, a, n), Dot(b, b, n);
    if na > 0.0 && nb > 0.0 then
      var d := NewtonIterate(na, 8) * NewtonIterate(nb, 8);
      assert d > 0.0;
      Ratio(Dot(a, b, n), d)
    else 0.0
  }

  /** The retriever's cosine: no division by zero, and always within [-1, 1]. */
  method NewtonCosine(a: Vector, b: Vector) returns (c: real)
    ensures c == NewtonSimilarity(a, b)
    ensures -1.0 <= c <= 1.0
  {
    hide NewtonIterate, Dot;
    if |a| == 0 || |b| == 0 {
      NoComponents(a, a);
      NoComponents(b, b);
      return 0.0;
    }
    var n := |a|;
    if |b| < n { n := |b|; }
    var dot, na, nb := Accumulate(a, b, n);
    if na == 0.0 || nb == 0.0 { return 0.0; }
    var ra := NewtonSqrt(na);
    var rb := NewtonSqrt(nb);
    CosineBounded(a, b, n, ra, rb);
    c := Ratio(dot, ra * rb);
  }

  /** All that is used of `math.Sqrt`. */
  ghost predicate IsRoot(root: real -> real) {
    forall x :: x > 0.0 ==> root(x) > 0.0 && root(x) * root(x) == x
  }

  /** The store's cosine, which divides by exact roots: no division by zero, and always within [-1, 1]. */
  function Cosine(root: real -> real, a: Vector, b: Vector): real
    requires IsRoot(root)
  {
    var n := Shared(a, b);
    var na, nb := Dot(a, a, n), Dot(b, b, n);
    NormNonNegative(a, n);
    NormNonNegative(b, n);
    if na == 0.0 || nb == 0.0 then 0.0 else
      CosineBounded(a, b, n, root(na), root(nb));
      Ratio(Dot(a, b, n), root(na) * root(nb))
  }

  lemma CosineInRange(root: real -> real, a: Vector, b: Vector)
    requires IsRoot(root)
    ensures -1.0 <= Cosine(root, a, b) <= 1.0
  {
    hide Dot;
    var n := Shared(a, b);
    NormNonNegative(a, n);
    NormNonNegative(b, n);
    if Dot(a, a, n) > 0.0 && Dot(b, b, n) > 0.0 {
      var ra, rb := root(Dot(a, a, n)), root(Dot(b, b, n));
      CosineBounded(a, b, n, ra, rb);
      assert Cosine(root, a, b) == Ratio(Dot(a, b, n), ra * rb);
    }
  }

  method ComputeCosine(root: real -> real, a: Vector, b: Vector) returns (c: real)
    requires IsRoot(root)
    ensures c == Cosine(root, a, b)
  {
    if |a| == 0 || |b| == 0 { return 0.0; }
    var n := |a|;
    if |b| < n { n := |b|; }
    var dot, na, nb := Accumulate(a, b, n);
    if na == 0.0 || nb == 0.0 { return 0.0; }
    c := dot / (root(na) * root(nb));
  }

  /** A vector of norm² between 1/4 and 4 is its own neighbour up to 30 digits. */
  lemma SelfSimilarity(a: Vector, c: real)
    requires 0.25 <= Dot(a, a, |a|) <= 4.0
    requires c == NewtonSimilarity(a, a)
    ensures 1.0 - 0.000000000000000000000000000001 <= c <= 1.0
  {
    var x := Dot(a, a, |a|);
    var z := NewtonIterate(x, 8);
    NewtonEightSteps(x);
    hide NewtonIterate;
    QuotientTimes(x, z * z);
    SelfRatio(x, z * z, c, 0.000000000000000000000000000001);
  }

  lemma SelfRatio(x: real, s: real, c: real, e: real)
    requires x > 0.0 && 0.0 <= s - x <= x * e && 0.0 <= e <= 1.0 && s * c == x
    ensures 1.0 - e <= c <= 1.0
  {
    assert (1.0 - c) * s == s - x;
    NonNegativeFactor(s, 1.0 - c);
    assert (c - (1.0 - e)) * s == x - s + e * s;
    assert e * s >= e * x by { SignOfProduct(e, s - x); }
    NonNegativeFactor(s, c - (1.0 - e));
  }
}
