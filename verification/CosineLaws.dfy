/** What the dot product and the two cosines compute. */
module CosineLaws {
  import opened Arithmetic
  import opened Vectors

  // ---------------------------------------------------------------- the dot product

  function Scaled(v: Vector, k: real): (w: Vector)
    ensures |w| == |v| && forall i :: 0 <= i < |v| ==> w[i] == k * v[i]
  {
    seq(|v|, i requires 0 <= i < |v| => k * v[i])
  }

  function Sum(v: Vector, w: Vector): (u: Vector)
    requires |v| == |w|
    ensures |u| == |v| && forall i :: 0 <= i < |v| ==> u[i] == v[i] + w[i]
  {
    seq(|v|, i requires 0 <= i < |v| => v[i] + w[i])
  }

  /** The vector of n components that is 1 at i and 0 elsewhere. */
  function Unit(n: nat, i: nat): (u: Vector)
    ensures |u| == n && forall k :: 0 <= k < n ==> u[k] == if k == i then 1.0 else 0.0
  {
    seq(n, k => if k == i then 1.0 else 0.0)
  }

  lemma {:induction false} DotScales(a: Vector, b: Vector, k: real, n: nat)
    requires n <= |a| && n <= |b|
    ensures Dot(a, Scaled(b, k), n) == k * Dot(a, b, n)
  {
    if n > 0 {
      DotScales(a, b, k, n - 1);
      Distribute(k, Dot(a, b, n - 1), a[n - 1] * b[n - 1]);
      assert a[n - 1] * (k * b[n - 1]) == k * (a[n - 1] * b[n - 1]);
    }
  }

  lemma {:induction false} DotAdds(a: Vector, b: Vector, c: Vector, n: nat)
    requires |b| == |c| && n <= |a| && n <= |b|
    ensures Dot(a, Sum(b, c), n) == Dot(a, b, n) + Dot(a, c, n)
  {
    if n > 0 {
      DotAdds(a, b, c, n - 1);
      Distribute(a[n - 1], b[n - 1], c[n - 1]);
    }
  }

  /** Linear in its second argument, symmetric, and picking out a component against a unit vector: the dot product. */
  lemma {:induction false} DotWithUnit(a: Vector, size: nat, i: nat, n: nat)
    requires n <= |a| && n <= size
    ensures Dot(a, Unit(size, i), n) == if i < n then a[i] else 0.0
  {
    if n > 0 { DotWithUnit(a, size, i, n - 1); }
  }

  // ---------------------------------------------------------------- the exact cosine

  /** How many components two vectors share. */
  function Compared(a: Vector, b: Vector): (n: nat)
    ensures n <= |a| && n <= |b| && (n == |a| || n == |b|)
  {
    if |a| < |b| then |a| else |b|
  }

  /** Neither compared norm vanishes. */
  predicate Comparable(a: Vector, b: Vector) {
    var n := Compared(a, b);
    Dot(a, a, n) > 0.0 && Dot(b, b, n) > 0.0
  }

  /** Times both norms, the cosine is the dot product; without norms it is 0. */
  lemma CosineTimesNorms(root: real -> real, a: Vector, b: Vector)
    requires IsRoot(root)
    ensures var n := Compared(a, b);
            if Comparable(a, b) then Cosine(root, a, b) * (root(Dot(a, a, n)) * root(Dot(b, b, n))) == Dot(a, b, n)
            else Cosine(root, a, b) == 0.0
  {
    hide Dot, IsRoot;
    var n := Compared(a, b);
    NormNonNegative(a, n);
    NormNonNegative(b, n);
    if Comparable(a, b) {
      RootPositive(root, Dot(a, a, n));
      RootPositive(root, Dot(b, b, n));
      RatioTimes(Dot(a, b, n), root(Dot(a, a, n)), root(Dot(b, b, n)));
    }
  }

  lemma RootPositive(root: real -> real, x: real)
    requires IsRoot(root) && x > 0.0
    ensures root(x) > 0.0 && root(x) * root(x) == x
  {
  }

  lemma RatioTimes(d: real, r: real, s: real)
    requires r > 0.0 && s > 0.0
    ensures r * s > 0.0 && Ratio(d, r * s) * (r * s) == d
  {
    SignOfStrictProduct(r, s);
    QuotientTimes(d, r * s);
  }

  /** The sign of a quotient by a positive number. */
  lemma SignOfQuotient(c: real, r: real, d: real)
    requires r > 0.0 && c * r == d
    ensures (c > 0.0 <==> d > 0.0) && (c < 0.0 <==> d < 0.0)
  {
    if c > 0.0 {
      SignOfStrictProduct(c, r);
    } else if c < 0.0 {
      SignOfStrictProduct(0.0 - c, r);
      assert (0.0 - c) * r == 0.0 - d;
    }
  }

  /** The cosine has the sign of the dot product. */
  lemma CosineSign(root: real -> real, a: Vector, b: Vector)
    requires IsRoot(root) && Comparable(a, b)
    ensures var d := Dot(a, b, Compared(a, b));
            (Cosine(root, a, b) > 0.0 <==> d > 0.0) && (Cosine(root, a, b) < 0.0 <==> d < 0.0)
  {
    hide Dot, Cosine, IsRoot;
    var n := Compared(a, b);
    CosineTimesNorms(root, a, b);
    RootPositive(root, Dot(a, a, n));
    RootPositive(root, Dot(b, b, n));
    SignOfStrictProduct(root(Dot(a, a, n)), root(Dot(b, b, n)));
    SignOfQuotient(Cosine(root, a, b), root(Dot(a, a, n)) * root(Dot(b, b, n)), Dot(a, b, n));
  }

  /** A vector that is not zero is its own neighbour. */
  lemma CosineSelf(root: real -> real, a: Vector)
    requires IsRoot(root) && Dot(a, a, |a|) > 0.0
    ensures Cosine(root, a, a) == 1.0
  {
    hide Dot, Cosine, IsRoot;
    var x := Dot(a, a, |a|);
    CosineTimesNorms(root, a, a);
    RootPositive(root, x);
    Cancel(x, Cosine(root, a, a), 1.0);
  }

  lemma SameSquare(u: real, v: real)
    requires u > 0.0 && v > 0.0 && u * u == v * v
    ensures u == v
  {
    AbsoluteFromSquares(u, v);
    AbsoluteFromSquares(v, u);
  }

  lemma RootOfScaled(root: real -> real, x: real, k: real, y: real)
    requires IsRoot(root) && x > 0.0 && k > 0.0 && y == k * (k * x)
    ensures y > 0.0 && root(y) == k * root(x)
  {
    hide IsRoot;
    var r := root(x);
    RootPositive(root, x);
    PositiveProduct(k, x, k * x);
    PositiveProduct(k, k * x, y);
    RootPositive(root, y);
    SignOfStrictProduct(k, r);
    assert (k * r) * (k * r) == k * (k * (r * r));
    SameSquare(root(y), k * r);
  }

  lemma PositiveProduct(u: real, v: real, p: real)
    requires u > 0.0 && v > 0.0 && p == u * v
    ensures p > 0.0
  {
  }

  lemma ScaledNorm(b: Vector, k: real, n: nat)
    requires n <= |b|
    ensures Dot(Scaled(b, k), Scaled(b, k), n) == k * (k * Dot(b, b, n))
  {
    hide Dot;
    DotScales(Scaled(b, k), b, k, n);
    DotCommutes(Scaled(b, k), b, n);
    DotScales(b, b, k, n);
  }

  lemma ScaledRoot(root: real -> real, b: Vector, k: real, n: nat)
    requires IsRoot(root) && n <= |b| && Dot(b, b, n) > 0.0 && k > 0.0
    ensures Dot(Scaled(b, k), Scaled(b, k), n) > 0.0
    ensures root(Dot(Scaled(b, k), Scaled(b, k), n)) == k * root(Dot(b, b, n))
  {
    hide Dot, IsRoot, Scaled;
    ScaledNorm(b, k, n);
    RootOfScaled(root, Dot(b, b, n), k, Dot(Scaled(b, k), Scaled(b, k), n));
  }

  lemma ScaledProduct(root: real -> real, a: Vector, b: Vector, k: real, n: nat, r: real, s: real)
    requires IsRoot(root) && Comparable(a, b) && k > 0.0 && n == Compared(a, b)
    requires r == root(Dot(a, a, n)) && s == root(Dot(b, b, n))
    ensures Comparable(a, Scaled(b, k)) && Cosine(root, a, Scaled(b, k)) * (r * (k * s)) == k * Dot(a, b, n)
  {
    hide Dot, Cosine, IsRoot, Scaled;
    var sb := Scaled(b, k);
    assert Compared(a, sb) == n;
    DotScales(a, b, k, n);
    ScaledRoot(root, b, k, n);
    CosineTimesNorms(root, a, sb);
  }

  /** Scaling a vector by a positive factor leaves its cosine with any other unchanged. */
  lemma CosineScaled(root: real -> real, a: Vector, b: Vector, k: real)
    requires IsRoot(root) && Comparable(a, b) && k > 0.0
    ensures Comparable(a, Scaled(b, k)) && Cosine(root, a, Scaled(b, k)) == Cosine(root, a, b)
  {
    hide Dot, Cosine, IsRoot, Comparable, Compared;
    var n := Compared(a, b);
    var r, s := root(Dot(a, a, n)), root(Dot(b, b, n));
    RootsPositive(root, a, b);
    ScaledProduct(root, a, b, k, n, r, s);
    CosineTimesNorms(root, a, b);
    CancelScale(Cosine(root, a, Scaled(b, k)), Cosine(root, a, b), r, s, k, Dot(a, b, n));
  }

  lemma RootsPositive(root: real -> real, a: Vector, b: Vector)
    requires IsRoot(root) && Comparable(a, b)
    ensures root(Dot(a, a, Compared(a, b))) > 0.0 && root(Dot(b, b, Compared(a, b))) > 0.0
  {
    hide Dot;
  }

  lemma CancelScale(c: real, e: real, r: real, s: real, k: real, d: real)
    requires r > 0.0 && s > 0.0 && k > 0.0 && c * (r * (k * s)) == k * d && e * (r * s) == d
    ensures c == e
  {
    SignOfStrictProduct(r, s);
    SignOfStrictProduct(k, r * s);
    assert (k * (r * s)) * c == c * (r * (k * s));
    assert (k * (r * s)) * e == k * (e * (r * s));
    Cancel(k * (r * s), c, e);
  }

  // ---------------------------------------------------------------- the retriever's cosine

  /** Times both Newton roots it is the dot product; without norms it is 0. */
  lemma SimilarityTimesRoots(a: Vector, b: Vector)
    ensures var n := Compared(a, b);
            if Comparable(a, b)
            then NewtonSimilarity(a, b) * (NewtonIterate(Dot(a, a, n), 8) * NewtonIterate(Dot(b, b, n), 8)) == Dot(a, b, n)
            else NewtonSimilarity(a, b) == 0.0
  {
    hide Dot, NewtonIterate;
    var n := Compared(a, b);
    if Comparable(a, b) {
      RatioTimes(Dot(a, b, n), NewtonIterate(Dot(a, a, n), 8), NewtonIterate(Dot(b, b, n), 8));
    }
  }

  lemma SimilaritySign(a: Vector, b: Vector)
    requires Comparable(a, b)
    ensures var d := Dot(a, b, Compared(a, b));
            (NewtonSimilarity(a, b) > 0.0 <==> d > 0.0) && (NewtonSimilarity(a, b) < 0.0 <==> d < 0.0)
  {
    hide Dot, NewtonIterate, NewtonSimilarity;
    var n := Compared(a, b);
    SimilarityTimesRoots(a, b);
    SignOfStrictProduct(NewtonIterate(Dot(a, a, n), 8), NewtonIterate(Dot(b, b, n), 8));
    SignOfQuotient(NewtonSimilarity(a, b), NewtonIterate(Dot(a, a, n), 8) * NewtonIterate(Dot(b, b, n), 8), Dot(a, b, n));
  }

  const PRECISION := 1.000000000000000000000000000001

  /** The eight Newton steps lie within a factor 1 + 10⁻³⁰ above the exact root. */
  lemma NewtonNearRoot(root: real -> real, x: real)
    requires IsRoot(root) && 0.25 <= x <= 4.0
    ensures 0.0 < root(x) <= NewtonIterate(x, 8) <= root(x) * PRECISION
  {
    var z := NewtonIterate(x, 8);
    NewtonEightSteps(x);
    hide NewtonIterate, IsRoot;
    RootPositive(root, x);
    var r := root(x);
    AbsoluteFromSquares(r, z);
    SignOfStrictProduct(r, PRECISION);
    Regroup(r, r, PRECISION, PRECISION);
    assert (r * PRECISION) * (r * PRECISION) == x * (PRECISION * PRECISION);
    SignOfProduct(x, PRECISION * PRECISION - PRECISION);
    assert z * z <= x * PRECISION;
    assert x * (PRECISION * PRECISION) - x * PRECISION == x * (PRECISION * PRECISION - PRECISION);
    AbsoluteFromSquares(z, r * PRECISION);
  }

  /** s·d = c·r with r ≤ d ≤ r·k. */
  lemma NearlySame(s: real, d: real, c: real, r: real, k: real)
    requires 0.0 < r <= d <= r * k && s * d == c * r
    ensures s >= 0.0 ==> s <= c <= s * k
    ensures s <= 0.0 ==> s * k <= c <= s
  {
    assert (c - s) * r == s * (d - r);
    assert (s * k - c) * r == s * (r * k - d);
    if s >= 0.0 {
      SignOfProduct(s, d - r);
      SignOfProduct(s, r * k - d);
      NonNegativeFactor(r, c - s);
      NonNegativeFactor(r, s * k - c);
    } else {
      SignOfProduct(0.0 - s, d - r);
      SignOfProduct(0.0 - s, r * k - d);
      assert (s - c) * r == (0.0 - s) * (d - r);
      assert (c - s * k) * r == (0.0 - s) * (r * k - d);
      NonNegativeFactor(r, s - c);
      NonNegativeFactor(r, c - s * k);
    }
  }

  /**
   * On vectors of compared norm² between 1/4 and 4 the retriever's cosine agrees with the exact cosine
   * the store computes, up to the factor (1 + 10⁻³⁰)².
   */
  lemma SimilarityNearCosine(root: real -> real, a: Vector, b: Vector)
    requires IsRoot(root)
    requires 0.25 <= Dot(a, a, Compared(a, b)) <= 4.0 && 0.25 <= Dot(b, b, Compared(a, b)) <= 4.0
    ensures var s, c := NewtonSimilarity(a, b), Cosine(root, a, b);
            if s >= 0.0 then s <= c <= s * (PRECISION * PRECISION) else s * (PRECISION * PRECISION) <= c <= s
  {
    hide Dot, NewtonIterate, NewtonSimilarity, Cosine, IsRoot;
    var n := Compared(a, b);
    var na, nb := Dot(a, a, n), Dot(b, b, n);
    NewtonNearRoot(root, na);
    NewtonNearRoot(root, nb);
    SimilarityTimesRoots(a, b);
    CosineTimesNorms(root, a, b);
    var y, z, r, s := NewtonIterate(na, 8), NewtonIterate(nb, 8), root(na), root(nb);
    ProductMonotone(r, y, s, z);
    ProductMonotone(y, r * PRECISION, z, s * PRECISION);
    SignOfStrictProduct(r, s);
    Regroup(r, s, PRECISION, PRECISION);
    NearlySame(NewtonSimilarity(a, b), y * z, Cosine(root, a, b), r * s, PRECISION * PRECISION);
  }
}
