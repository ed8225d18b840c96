/**
 Cosine similarity (internal/vector/bruteforce/store.go, cosineSimilarity), over the reals: rounding is
 not modelled. The square root is a parameter, any function that is one on the non-negative reals.
 */
module Cosine {
  /** The plain sum of products over the first `n` components. */
  function Dot(a: seq<real>, b: seq<real>, n: nat): real
    requires n <= |a| && n <= |b|
  {
    if n == 0 then 0.0 else Dot(a, b, n - 1) + a[n - 1] * b[n - 1]
  }

  ghost predicate IsSqrt(sqrt: real -> real) {
    forall x :: x >= 0.0 ==> sqrt(x) >= 0.0 && sqrt(x) * sqrt(x) == x
  }

  lemma ProductPositive(x: real, y: real)
    requires x > 0.0 && y > 0.0
    ensures x * y > 0.0
  {}

  lemma Negated(x: real, y: real)
    ensures x * (0.0 - y) == 0.0 - x * y
  {}

  lemma FactorNonNegative(x: real, y: real)
    requires x > 0.0 && x * y >= 0.0
    ensures y >= 0.0
  {
    Negated(x, y);
    if y < 0.0 {
      ProductPositive(x, 0.0 - y);
    }
  }

  lemma Square(x: real)
    ensures x * x >= 0.0
    ensures x != 0.0 ==> x * x > 0.0
  {
    if x > 0.0 {
      ProductPositive(x, x);
    } else if x < 0.0 {
      var y := 0.0 - x;
      ProductPositive(y, y);
      Negated(y, x);
      Negated(x, x);
      assert x * x > 0.0;
    } else {
      assert x == 0.0;
    }
  }

  lemma {:induction false} NormNonNegative(a: seq<real>, n: nat)
    requires n <= |a|
    ensures Dot(a, a, n) >= 0.0
  {
    if n > 0 {
      NormNonNegative(a, n - 1);
      Square(a[n - 1]);
    }
  }

  /** The squared length of `s * a - t * b`, where p, q and r are the products of a and b with each other. */
  function Combination(p: real, q: real, r: real, s: real, t: real): real {
    s * s * p - 2.0 * s * t * q + t * t * r
  }

  /** No combination of the two vectors has a negative squared length. */
  ghost predicate Gram(p: real, q: real, r: real) {
    forall s, t :: Combination(p, q, r, s, t) >= 0.0
  }

  lemma {:induction false} DotsAreGram(a: seq<real>, b: seq<real>, n: nat)
    requires n <= |a| && n <= |b|
    ensures Gram(Dot(a, a, n), Dot(a, b, n), Dot(b, b, n))
  {
    if n == 0 {
      NothingIsGram();
    } else {
      DotsAreGram(a, b, n - 1);
      GramStep(Dot(a, a, n - 1), Dot(a, b, n - 1), Dot(b, b, n - 1), a[n - 1], b[n - 1],
               Dot(a, a, n), Dot(a, b, n), Dot(b, b, n));
    }
  }

  lemma NothingIsGram()
    ensures Gram(0.0, 0.0, 0.0)
  {
    forall s, t ensures Combination(0.0, 0.0, 0.0, s, t) >= 0.0 {}
  }

  lemma GramStep(p: real, q: real, r: real, x: real, y: real, p': real, q': real, r': real)
    requires Gram(p, q, r) && p' == p + x * x && q' == q + x * y && r' == r + y * y
    ensures Gram(p', q', r')
  {
    forall s, t ensures Combination(p', q', r', s, t) >= 0.0 {
      CombinationStep(p, q, r, s, t, x, y);
    }
  }

  lemma CombinationStep(p: real, q: real, r: real, s: real, t: real, x: real, y: real)
    requires Combination(p, q, r, s, t) >= 0.0
    ensures Combination(p + x * x, q + x * y, r + y * y, s, t) >= 0.0
  {
    SquareOfDifference(s, t, x, y);
    Distributes(s * s, p, x * x);
    Distributes(2.0 * s * t, q, x * y);
    Distributes(t * t, r, y * y);
  }

  lemma Distributes(c: real, u: real, v: real)
    ensures c * (u + v) == c * u + c * v
  {}

  lemma SquareOfDifference(s: real, t: real, x: real, y: real)
    ensures s * s * (x * x) - 2.0 * s * t * (x * y) + t * t * (y * y) >= 0.0
  {
    var u, v := s * x, t * y;
    Square(u - v);
    assert (u - v) * (u - v) == u * u - 2.0 * (u * v) + v * v;
    assert u * u == s * s * (x * x);
    assert u * v == s * t * (x * y);
    assert v * v == t * t * (y * y);
    assert 2.0 * s * t * (x * y) == 2.0 * (s * t * (x * y));
  }

  /** Dot product squared is at most the product of the squared norms. */
  lemma {:induction false} CauchySchwarz(a: seq<real>, b: seq<real>, n: nat)
    requires n <= |a| && n <= |b|
    ensures Dot(a, b, n) * Dot(a, b, n) <= Dot(a, a, n) * Dot(b, b, n)
  {
    NormNonNegative(a, n);
    NormNonNegative(b, n);
    DotsAreGram(a, b, n);
    FromGram(Dot(a, a, n), Dot(a, b, n), Dot(b, b, n));
  }

  lemma FromGram(p: real, q: real, r: real)
    requires p >= 0.0 && r >= 0.0 && Gram(p, q, r)
    ensures q * q <= p * r
  {
    assert Combination(p, q, r, r, q) >= 0.0 && Combination(p, q, r, q, p + 1.0) >= 0.0;
    if r > 0.0 {
      PositiveNorm(p, q, r);
    } else {
      Square(q);
      ZeroNorm(p, q, r);
    }
  }

  lemma PositiveNorm(p: real, q: real, r: real)
    requires r > 0.0 && Combination(p, q, r, r, q) >= 0.0
    ensures q * q <= p * r
  {
    var rp, qq := p * r, q * q;
    assert r * r * p == r * rp;
    assert r * q * q == r * qq && q * q * r == r * qq;
    assert 2.0 * r * q * q == 2.0 * (r * qq);
    assert r * rp - r * qq == r * (rp - qq);
    FactorNonNegative(r, rp - qq);
  }

  lemma ZeroNorm(p: real, q: real, r: real)
    requires p >= 0.0 && r == 0.0 && q * q >= 0.0 && Combination(p, q, r, q, p + 1.0) >= 0.0
    ensures q * q <= p * r
  {
    assert (p + 1.0) * (p + 1.0) * r == 0.0;
    var qq := q * q;
    var nq := 0.0 - qq;
    assert q * (p + 1.0) * q == qq * (p + 1.0);
    assert 2.0 * q * (p + 1.0) * q == 2.0 * (qq * (p + 1.0));
    assert qq * (p + 1.0) == qq * p + qq;
    assert (p + 2.0) * nq == 0.0 - (p + 2.0) * qq;
    assert (p + 2.0) * qq == qq * p + 2.0 * qq;
    FactorNonNegative(p + 2.0, nq);
  }

  /** `q` by the product of two lengths, folded: only `RatioIs` and `RatioTimes` reach the end of the lock. */
  function Ratio(q: real, x: real, y: real, lock: nat): real
    requires x > 0.0 && y > 0.0
  {
    ProductPositive(x, y);
    if lock == 0 then q / (x * y) else Ratio(q, x, y, lock - 1)
  }

  /** Zero if a squared norm is zero, else the dot product `q` over the product of the norms. */
  function FromSums(p: real, q: real, r: real, sqrt: real -> real, lock: nat): real
    requires IsSqrt(sqrt) && p >= 0.0 && r >= 0.0
  {
    if p == 0.0 || r == 0.0 then 0.0
    else
      RootPositive(p, sqrt);
      RootPositive(r, sqrt);
      Ratio(q, sqrt(p), sqrt(r), lock)
  }

  function Similarity(a: seq<real>, b: seq<real>, sqrt: real -> real): real
    requires |a| <= |b| && IsSqrt(sqrt)
  {
    NormNonNegative(a, |a|);
    NormNonNegative(b, |a|);
    FromSums(Dot(a, a, |a|), Dot(a, b, |a|), Dot(b, b, |a|), sqrt, 3 + |a|)
  }

  lemma RootPositive(p: real, sqrt: real -> real)
    requires IsSqrt(sqrt) && p > 0.0
    ensures sqrt(p) > 0.0
  {
    Square(sqrt(p));
  }

  lemma DifferenceOfSquares(x: real, y: real)
    ensures (x - y) * (x + y) == x * x - y * y
  {}

  lemma SquareOrder(q: real, m: real)
    requires m > 0.0 && q * q <= m * m
    ensures q <= m
  {
    DifferenceOfSquares(q, m);
    if q > m {
      ProductPositive(q - m, q + m);
    }
  }

  lemma BoundedQuotient(q: real, m: real)
    requires m > 0.0 && q * q <= m * m
    ensures -1.0 <= q / m <= 1.0
  {
    var c, nq := q / m, 0.0 - q;
    Negated(nq, q);
    Negated(q, q);
    SquareOrder(q, m);
    SquareOrder(nq, m);
    assert (1.0 - c) * m == m - q;
    assert (1.0 + c) * m == m + q;
    assert m * (1.0 - c) >= 0.0 && m * (1.0 + c) >= 0.0;
    FactorNonNegative(m, 1.0 - c);
    FactorNonNegative(m, 1.0 + c);
  }

  lemma ProductOfSquares(x: real, y: real, p: real, r: real)
    requires x * x == p && y * y == r
    ensures (x * y) * (x * y) == p * r
  {
    assert (x * y) * (x * y) == (x * x) * (y * y);
  }

  /** The similarity lies between -1 and 1. */
  lemma SimilarityInRange(a: seq<real>, b: seq<real>, sqrt: real -> real)
    requires |a| <= |b| && IsSqrt(sqrt)
    ensures -1.0 <= Similarity(a, b, sqrt) <= 1.0
  {
    NormNonNegative(a, |a|);
    NormNonNegative(b, |a|);
    CauchySchwarz(a, b, |a|);
    InRange(Dot(a, a, |a|), Dot(a, b, |a|), Dot(b, b, |a|), sqrt, 3 + |a|);
  }

  lemma InRange(p: real, q: real, r: real, sqrt: real -> real, lock: nat)
    requires IsSqrt(sqrt) && p >= 0.0 && r >= 0.0 && q * q <= p * r
    ensures -1.0 <= FromSums(p, q, r, sqrt, lock) <= 1.0
  {
    if p != 0.0 && r != 0.0 {
      RootPositive(p, sqrt);
      RootPositive(r, sqrt);
      var x, y := sqrt(p), sqrt(r);
      var m := x * y;
      ProductIs(x, y, m);
      ProductOfSquares(x, y, p, r);
      BoundedQuotient(q, m);
      RatioIs(q, x, y, q / m, m, lock);
    }
  }

  // ---- What the similarity means ----

  lemma {:induction false} DotSymmetric(a: seq<real>, b: seq<real>, n: nat)
    requires n <= |a| && n <= |b|
    ensures Dot(a, b, n) == Dot(b, a, n)
  {
    if n > 0 {
      DotSymmetric(a, b, n - 1);
    }
  }

  function Scaled(v: seq<real>, c: real): (w: seq<real>)
    ensures |w| == |v| && forall i :: 0 <= i < |v| ==> w[i] == c * v[i]
  {
    seq(|v|, i requires 0 <= i < |v| => c * v[i])
  }

  lemma {:induction false} DotScaled(a: seq<real>, b: seq<real>, c: real, n: nat)
    requires n <= |a| && n <= |b|
    ensures Dot(a, Scaled(b, c), n) == c * Dot(a, b, n)
  {
    if n > 0 {
      DotScaled(a, b, c, n - 1);
      FactorOut(c, a[n - 1], b[n - 1], Dot(a, b, n - 1));
    }
  }

  function Sum(v: seq<real>, w: seq<real>): (u: seq<real>)
    requires |v| == |w|
    ensures |u| == |v| && forall i :: 0 <= i < |v| ==> u[i] == v[i] + w[i]
  {
    seq(|v|, i requires 0 <= i < |v| => v[i] + w[i])
  }

  /** With DotScaled and DotOfUnit this leaves no other product: each component of one meets its own of the other. */
  lemma {:induction false} DotOfSum(a: seq<real>, b: seq<real>, c: seq<real>, n: nat)
    requires n <= |a| && n <= |b| == |c|
    ensures Dot(a, Sum(b, c), n) == Dot(a, b, n) + Dot(a, c, n)
  {
    if n > 0 {
      DotOfSum(a, b, c, n - 1);
      Distributes(a[n - 1], b[n - 1], c[n - 1]);
    }
  }

  function Unit(n: nat, k: nat): (v: seq<real>)
    ensures |v| == n && forall i :: 0 <= i < n ==> v[i] == if i == k then 1.0 else 0.0
  {
    seq(n, i requires 0 <= i < n => if i == k then 1.0 else 0.0)
  }

  lemma {:induction false} DotOfUnit(a: seq<real>, k: nat, m: nat, n: nat)
    requires k < m && n <= |a| && n <= m
    ensures Dot(a, Unit(m, k), n) == if k < n then a[k] else 0.0
  {
    if n > 0 {
      DotOfUnit(a, k, m, n - 1);
    }
  }

  lemma FactorOut(c: real, x: real, y: real, sum: real)
    ensures c * sum + x * (c * y) == c * (sum + x * y)
  {
    assert x * (c * y) == c * (x * y);
  }

  lemma NormScaled(b: seq<real>, c: real, n: nat)
    requires n <= |b|
    ensures Dot(Scaled(b, c), Scaled(b, c), n) == c * (c * Dot(b, b, n))
  {
    DotScaled(Scaled(b, c), b, c, n);
    DotSymmetric(Scaled(b, c), b, n);
    DotScaled(b, b, c, n);
  }

  lemma SquareUnique(x: real, y: real)
    requires x >= 0.0 && y >= 0.0 && x * x == y * y
    ensures x == y
  {
    DifferenceOfSquares(x, y);
    if x > y {
      ProductPositive(x - y, x + y);
    } else if x < y {
      DifferenceOfSquares(y, x);
      ProductPositive(y - x, y + x);
    }
  }

  lemma ProductSigns(x: real, y: real)
    requires y > 0.0
    ensures (x * y > 0.0 <==> x > 0.0) && (x * y < 0.0 <==> x < 0.0)
  {
    if x > 0.0 {
      ProductPositive(x, y);
    } else if x < 0.0 {
      ProductPositive(0.0 - x, y);
      Negated(y, x);
    }
  }

  lemma {:induction false} RatioIs(q: real, x: real, y: real, t: real, m: real, lock: nat)
    requires x > 0.0 && y > 0.0 && m == x * y && t * m == q
    ensures Ratio(q, x, y, lock) == t
  {
    ProductIs(x, y, m);
    if lock > 0 {
      RatioIs(q, x, y, t, m, lock - 1);
    } else {
      SameQuotient(q / m, t, m);
    }
  }

  lemma {:induction false} RatioTimes(q: real, x: real, y: real, m: real, lock: nat)
    requires x > 0.0 && y > 0.0 && m == x * y
    ensures m > 0.0 && Ratio(q, x, y, lock) * m == q
  {
    ProductIs(x, y, m);
    if lock > 0 {
      RatioTimes(q, x, y, m, lock - 1);
    }
  }

  lemma SameQuotient(s: real, t: real, m: real)
    requires m != 0.0 && s * m == t * m
    ensures s == t
  {
    assert s == s * m / m;
  }

  /** With norms that are not zero the similarity times their product is the dot product. */
  lemma SimilarityTimesNorms(a: seq<real>, b: seq<real>, sqrt: real -> real)
    requires |a| <= |b| && IsSqrt(sqrt) && Dot(a, a, |a|) != 0.0 && Dot(b, b, |a|) != 0.0
    ensures var m := sqrt(Dot(a, a, |a|)) * sqrt(Dot(b, b, |a|));
      m > 0.0 && Similarity(a, b, sqrt) * m == Dot(a, b, |a|)
  {
    NormNonNegative(a, |a|);
    NormNonNegative(b, |a|);
    var x, y := sqrt(Dot(a, a, |a|)), sqrt(Dot(b, b, |a|));
    RootPositive(Dot(a, a, |a|), sqrt);
    RootPositive(Dot(b, b, |a|), sqrt);
    RatioTimes(Dot(a, b, |a|), x, y, x * y, 3 + |a|);
  }

  lemma ZeroNormZeroDot(a: seq<real>, b: seq<real>, n: nat)
    requires n <= |a| && n <= |b| && (Dot(a, a, n) == 0.0 || Dot(b, b, n) == 0.0)
    ensures Dot(a, b, n) == 0.0
  {
    var p, q, r := Dot(a, a, n), Dot(a, b, n), Dot(b, b, n);
    CauchySchwarz(a, b, n);
    ZeroBound(q, p, r, q * q, p * r);
  }

  lemma ZeroBound(q: real, p: real, r: real, s: real, m: real)
    requires (p == 0.0 || r == 0.0) && s == q * q && s <= m
    requires m == p * r && m == r * p
    ensures q == 0.0
  {
    ZeroTimes(p, r, m);
    ZeroTimes(r, p, m);
    if q != 0.0 {
      SquareIs(q, s);
    }
  }

  lemma SquareIs(x: real, s: real)
    requires x != 0.0 && s == x * x
    ensures s > 0.0
  {
    if x > 0.0 {
      ProductIs(x, x, s);
    } else {
      SameSquare(x, 0.0 - x);
      ProductIs(0.0 - x, 0.0 - x, s);
    }
  }

  lemma ProductIs(x: real, y: real, m: real)
    requires x > 0.0 && y > 0.0 && m == x * y
    ensures m > 0.0
  {}

  lemma SameSquare(x: real, y: real)
    requires y == 0.0 - x
    ensures x * x == y * y
  {}

  lemma ZeroTimes(x: real, y: real, m: real)
    requires m == x * y
    ensures x == 0.0 ==> m == 0.0
  {}

  /** The similarity has the sign of the dot product; in particular both are zero together. */
  lemma SimilaritySign(a: seq<real>, b: seq<real>, sqrt: real -> real)
    requires |a| <= |b| && IsSqrt(sqrt)
    ensures Similarity(a, b, sqrt) > 0.0 <==> Dot(a, b, |a|) > 0.0
    ensures Similarity(a, b, sqrt) < 0.0 <==> Dot(a, b, |a|) < 0.0
  {
    if Dot(a, a, |a|) == 0.0 || Dot(b, b, |a|) == 0.0 {
      ZeroNormZeroDot(a, b, |a|);
    } else {
      SimilarityTimesNorms(a, b, sqrt);
      ProductSigns(Similarity(a, b, sqrt), sqrt(Dot(a, a, |a|)) * sqrt(Dot(b, b, |a|)));
    }
  }

  lemma SimilaritySymmetric(a: seq<real>, b: seq<real>, sqrt: real -> real)
    requires |a| == |b| && IsSqrt(sqrt)
    ensures Similarity(a, b, sqrt) == Similarity(b, a, sqrt)
  {
    DotSymmetric(a, b, |a|);
    NormNonNegative(a, |a|);
    NormNonNegative(b, |a|);
    SumsTurned(Dot(a, a, |a|), Dot(a, b, |a|), Dot(b, b, |a|), sqrt, 3 + |a|);
  }

  lemma SumsTurned(p: real, q: real, r: real, sqrt: real -> real, lock: nat)
    requires IsSqrt(sqrt) && p >= 0.0 && r >= 0.0
    ensures FromSums(p, q, r, sqrt, lock) == FromSums(r, q, p, sqrt, lock)
  {
    if p != 0.0 && r != 0.0 {
      RootPositive(p, sqrt);
      RootPositive(r, sqrt);
      var x, y := sqrt(p), sqrt(r);
      var m := x * y;
      RatioTimes(q, x, y, m, lock);
      RatioIs(q, y, x, Ratio(q, x, y, lock), m, lock);
    }
  }

  lemma SqrtScaled(r: real, c: real, sqrt: real -> real)
    requires IsSqrt(sqrt) && r >= 0.0 && c >= 0.0
    ensures c * (c * r) >= 0.0 && sqrt(c * (c * r)) == c * sqrt(r)
  {
    var y := sqrt(r);
    assert c * r >= 0.0 && c * (c * r) >= 0.0 && c * y >= 0.0;
    assert (c * y) * (c * y) == c * (c * (y * y));
    SquareUnique(sqrt(c * (c * r)), c * y);
  }

  /** A positive factor changes nothing. */
  lemma SimilarityScales(a: seq<real>, b: seq<real>, c: real, sqrt: real -> real)
    requires |a| <= |b| && IsSqrt(sqrt) && c > 0.0
    ensures Similarity(a, Scaled(b, c), sqrt) == Similarity(a, b, sqrt)
  {
    NormScaled(b, c, |a|);
    DotScaled(a, b, c, |a|);
    NormNonNegative(a, |a|);
    NormNonNegative(b, |a|);
    NormNonNegative(Scaled(b, c), |a|);
    SumsScaled(Dot(a, a, |a|), Dot(a, b, |a|), Dot(b, b, |a|), c, Dot(a, Scaled(b, c), |a|),
               Dot(Scaled(b, c), Scaled(b, c), |a|), sqrt, 3 + |a|);
  }

  lemma SumsScaled(p: real, q: real, r: real, c: real, u: real, s: real, sqrt: real -> real, lock: nat)
    requires IsSqrt(sqrt) && p >= 0.0 && r >= 0.0 && s >= 0.0 && c > 0.0 && u == c * q && s == c * (c * r)
    ensures FromSums(p, u, s, sqrt, lock) == FromSums(p, q, r, sqrt, lock)
  {
    if r == 0.0 {
      ZeroTimes(r, c, c * r);
      ZeroTimes(c * r, c, s);
    } else {
      ScaledPositive(c, r, s);
      if p != 0.0 {
        RootPositive(p, sqrt);
        RootPositive(r, sqrt);
        SqrtScaled(r, c, sqrt);
        RatioScales(q, sqrt(p), sqrt(r), c, u, sqrt(s), lock);
      }
    }
  }

  lemma RatioScales(q: real, x: real, y: real, c: real, u: real, z: real, lock: nat)
    requires x > 0.0 && y > 0.0 && c > 0.0 && u == c * q && z == c * y
    ensures z > 0.0 && Ratio(u, x, z, lock) == Ratio(q, x, y, lock)
  {
    var n, m := x * y, x * z;
    ProductIs(c, y, z);
    RatioTimes(q, x, y, n, lock);
    TimesFactor(Ratio(q, x, y, lock), x, y, c, z, q, u, n, m);
    RatioIs(u, x, z, Ratio(q, x, y, lock), m, lock);
  }

  lemma ScaledPositive(c: real, r: real, s: real)
    requires c > 0.0 && r > 0.0 && s == c * (c * r)
    ensures s > 0.0
  {
    var cr := c * r;
    ProductPositive(c, r);
    ProductPositive(c, cr);
  }

  lemma TimesFactor(s: real, x: real, y: real, c: real, z: real, q: real, r: real, n: real, m: real)
    requires n == x * y && m == x * z && z == c * y && r == c * q && s * n == q
    ensures s * m == r
  {
    assert m == c * n;
    assert s * (c * n) == c * (s * n);
  }

  /** Turning one vector round negates it. */
  lemma SimilarityNegates(a: seq<real>, b: seq<real>, sqrt: real -> real)
    requires |a| <= |b| && IsSqrt(sqrt)
    ensures Similarity(a, Scaled(b, -1.0), sqrt) == 0.0 - Similarity(a, b, sqrt)
  {
    NormScaled(b, -1.0, |a|);
    DotScaled(a, b, -1.0, |a|);
    NormNonNegative(a, |a|);
    NormNonNegative(b, |a|);
    SumsNegated(Dot(a, a, |a|), Dot(a, b, |a|), Dot(b, b, |a|), Dot(a, Scaled(b, -1.0), |a|), sqrt, 3 + |a|);
  }

  lemma SumsNegated(p: real, q: real, r: real, u: real, sqrt: real -> real, lock: nat)
    requires IsSqrt(sqrt) && p >= 0.0 && r >= 0.0 && u == 0.0 - q
    ensures FromSums(p, u, r, sqrt, lock) == 0.0 - FromSums(p, q, r, sqrt, lock)
  {
    if p != 0.0 && r != 0.0 {
      RootPositive(p, sqrt);
      RootPositive(r, sqrt);
      var x, y := sqrt(p), sqrt(r);
      var s, m := Ratio(q, x, y, lock), x * y;
      RatioTimes(q, x, y, m, lock);
      Negated(m, s);
      RatioIs(u, x, y, 0.0 - s, m, lock);
    }
  }

  lemma IsOne(s: real, x: real, p: real)
    requires p != 0.0 && x * x == p && s * (x * x) == p
    ensures s == 1.0
  {
    var m := x * x;
    SameQuotient(s, 1.0, m);
  }

  /** A vector that is not zero is most similar to its positive multiples, and least to the negative ones. */
  lemma SimilarityOfMultiples(a: seq<real>, c: real, sqrt: real -> real)
    requires IsSqrt(sqrt) && Dot(a, a, |a|) != 0.0 && c > 0.0
    ensures Similarity(a, Scaled(a, c), sqrt) == 1.0
    ensures Similarity(a, Scaled(Scaled(a, c), -1.0), sqrt) == -1.0
  {
    SimilarityTimesNorms(a, a, sqrt);
    NormNonNegative(a, |a|);
    IsOne(Similarity(a, a, sqrt), sqrt(Dot(a, a, |a|)), Dot(a, a, |a|));
    SimilarityScales(a, a, c, sqrt);
    SimilarityNegates(a, Scaled(a, c), sqrt);
  }

  /** Four more products of one of the sums. */
  method AddFour(a: seq<real>, b: seq<real>, i: nat, sum: real) returns (next: real)
    requires i + 4 <= |a| && i + 4 <= |b| && sum == Dot(a, b, i)
    ensures next == Dot(a, b, i + 4)
  {
    var a0, a1, a2, a3 := a[i], a[i + 1], a[i + 2], a[i + 3];
    var b0, b1, b2, b3 := b[i], b[i + 1], b[i + 2], b[i + 3];
    FourMore(a, b, i);
    next := sum + (a0 * b0 + a1 * b1 + a2 * b2 + a3 * b3);
  }

  /** Four products at a time, then the rest one by one. */
  method Sums(a: seq<real>, b: seq<real>) returns (dot: real, normA: real, normB: real)
    requires |a| <= |b|
    ensures dot == Dot(a, b, |a|) && normA == Dot(a, a, |a|) && normB == Dot(b, b, |a|)
  {
    dot, normA, normB := 0.0, 0.0, 0.0;
    var n := |a|;
    var i := 0;
    while i + 3 < n
      invariant 0 <= i <= n
      invariant dot == Dot(a, b, i) && normA == Dot(a, a, i) && normB == Dot(b, b, i)
    {
      dot := AddFour(a, b, i, dot);
      normA := AddFour(a, a, i, normA);
      normB := AddFour(b, b, i, normB);
      i := i + 4;
    }
    while i < n
      invariant 0 <= i <= n
      invariant dot == Dot(a, b, i) && normA == Dot(a, a, i) && normB == Dot(b, b, i)
    {
      dot := AddOne(a, b, i, dot);
      normA := AddOne(a, a, i, normA);
      normB := AddOne(b, b, i, normB);
      i := i + 1;
    }
  }

  method AddOne(a: seq<real>, b: seq<real>, i: nat, sum: real) returns (next: real)
    requires i < |a| && i < |b| && sum == Dot(a, b, i)
    ensures next == Dot(a, b, i + 1)
  {
    next := sum + a[i] * b[i];
  }

  method CosineSimilarity(a: seq<real>, b: seq<real>, sqrt: real -> real) returns (sim: real)
    requires |a| <= |b| && IsSqrt(sqrt)
    ensures sim == Similarity(a, b, sqrt)
    ensures -1.0 <= sim <= 1.0
  {
    var dot, normA, normB := Sums(a, b);
    SimilarityInRange(a, b, sqrt);
    if normA == 0.0 || normB == 0.0 {
      return 0.0;
    }
    NormNonNegative(a, |a|);
    NormNonNegative(b, |a|);
    RootPositive(normA, sqrt);
    RootPositive(normB, sqrt);
    var lengths := sqrt(normA) * sqrt(normB);
    ProductIs(sqrt(normA), sqrt(normB), lengths);
    sim := dot / lengths;
    RatioIs(dot, sqrt(normA), sqrt(normB), sim, lengths, 3 + |a|);
  }

  lemma FourMore(a: seq<real>, b: seq<real>, i: nat)
    requires i + 4 <= |a| && i + 4 <= |b|
    ensures Dot(a, b, i + 4) ==
      Dot(a, b, i) + (a[i] * b[i] + a[i + 1] * b[i + 1] + a[i + 2] * b[i + 2] + a[i + 3] * b[i + 3])
  {
    assert Dot(a, b, i + 1) == Dot(a, b, i) + a[i] * b[i];
    assert Dot(a, b, i + 2) == Dot(a, b, i + 1) + a[i + 1] * b[i + 1];
    assert Dot(a, b, i + 3) == Dot(a, b, i + 2) + a[i + 2] * b[i + 2];
  }
}
