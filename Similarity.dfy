/**
 * Cosine similarity between two embedding vectors (`_cosine_similarity` in
 * thoughtful_ai_agent/tools.py). Vectors are modelled over exact reals; the
 * square root `x ** 0.5` is a parameter of which only a contract is assumed.
 */
module Similarity {

  /** An embedding vector, Python's `List[float]`. */
  type Vector = seq<real>

  /** `sum(a * b for a, b in zip(v1, v2))`; like `zip`, stops at the shorter vector. */
  function Dot(v1: Vector, v2: Vector): (r: real)
    ensures AllZero(v1) || AllZero(v2) ==> r == 0.0
  {
    if |v1| == 0 || |v2| == 0 then 0.0
    else
      assert AllZero(v1) ==> AllZero(v1[1..]) && v1[0] == 0.0;
      assert AllZero(v2) ==> AllZero(v2[1..]) && v2[0] == 0.0;
      v1[0] * v2[0] + Dot(v1[1..], v2[1..])
  }

  /** Like `zip`, the dot product ignores the components of the longer vector beyond the shorter one's length. */
  lemma {:induction false} DotIgnoresExcess(v1: Vector, v2: Vector, excess: Vector)
    requires |v1| <= |v2|
    ensures Dot(v1, v2 + excess) == Dot(v1, v2)
  {
    if |v1| > 0 {
      assert (v2 + excess)[1..] == v2[1..] + excess;
      DotIgnoresExcess(v1[1..], v2[1..], excess);
    }
  }

  /** Every component is zero, so the magnitude is zero. */
  predicate AllZero(v: Vector)
  {
    forall i :: 0 <= i < |v| ==> v[i] == 0.0
  }

  /** What the model relies on from the square root: non-negative, and zero exactly at zero. */
  ghost predicate SqrtContract(sqrt: real -> real)
  {
    forall x :: 0.0 <= x ==> 0.0 <= sqrt(x) && (sqrt(x) == 0.0 <==> x == 0.0)
  }

  /** The exact square root, needed for the statements about the value of the similarity. */
  ghost predicate ExactSqrt(sqrt: real -> real)
  {
    && SqrtContract(sqrt)
    && forall x :: 0.0 <= x ==> sqrt(x) * sqrt(x) == x
  }

  /** The quotient of a dot product by the product of two magnitudes; 0.0 when that product is zero. */
  function Ratio(d: real, m1: real, m2: real): real
  {
    if m1 * m2 == 0.0 then 0.0 else d / (m1 * m2)
  }

  /**
   * `_cosine_similarity(v1, v2)`: 0.0 for an empty vector or vectors of different
   * lengths, 0.0 when the product of the magnitudes is zero, and otherwise the dot
   * product divided by that product. The guard means the division is never by zero.
   */
  function CosineSimilarity(v1: Vector, v2: Vector, sqrt: real -> real): (r: real)
    ensures |v1| == 0 || |v2| == 0 || |v1| != |v2| ==> r == 0.0
  {
    if |v1| == 0 || |v2| == 0 || |v1| != |v2| then 0.0
    else
      var dotProduct := Dot(v1, v2);
      var magnitude1 := sqrt(Dot(v1, v1));
      var magnitude2 := sqrt(Dot(v2, v2));
      Ratio(dotProduct, magnitude1, magnitude2)
  }

  /** A vector of zeros has similarity 0.0 with every vector, in either position. */
  lemma ZeroVectorScoresZero(v1: Vector, v2: Vector, sqrt: real -> real)
    requires SqrtContract(sqrt)
    requires AllZero(v1) || AllZero(v2)
    ensures CosineSimilarity(v1, v2, sqrt) == 0.0
  {
    MagnitudeGuard(v1, v2, sqrt);
  }

  /** The product of two numbers of the same strict sign is positive. */
  lemma ProductPositive(x: real, y: real, p: real)
    requires p == x * y
    requires (x > 0.0 && y > 0.0) || (x < 0.0 && y < 0.0)
    ensures p > 0.0
  {
  }

  /** s = a² is non-negative, and positive for a non-zero a. */
  lemma SquareFacts(a: real, s: real)
    requires s == a * a
    ensures s >= 0.0
    ensures a != 0.0 ==> s > 0.0
  {
    if a != 0.0 {
      ProductPositive(a, a, s);
    } else {
      assert s == 0.0 * 0.0;
    }
  }

  /** The squared magnitude is non-negative, and zero exactly for an all-zero vector. */
  lemma {:induction false} SquaredMagnitude(v: Vector)
    ensures Dot(v, v) >= 0.0
    ensures AllZero(v) ==> Dot(v, v) == 0.0
    ensures !AllZero(v) ==> Dot(v, v) > 0.0
  {
    if |v| > 0 {
      var tail := v[1..];
      SquaredMagnitude(tail);
      var square := v[0] * v[0];
      SquareFacts(v[0], square);
      assert Dot(v, v) == square + Dot(tail, tail);
      assert forall i :: 0 <= i < |tail| ==> tail[i] == v[i + 1];
      if AllZero(v) {
        assert v[0] == 0.0 && AllZero(tail);
      } else if v[0] == 0.0 {
        assert !AllZero(tail) by {
          var i :| 0 <= i < |v| && v[i] != 0.0;
          assert tail[i - 1] != 0.0;
        }
      }
    }
  }

  /**
   * For two non-empty vectors of the same length, the guard on the product of the
   * magnitudes fires exactly when one of them is all zeros.
   */
  lemma MagnitudeGuard(v1: Vector, v2: Vector, sqrt: real -> real)
    requires SqrtContract(sqrt)
    ensures sqrt(Dot(v1, v1)) * sqrt(Dot(v2, v2)) == 0.0 <==> AllZero(v1) || AllZero(v2)
  {
    SquaredMagnitude(v1);
    SquaredMagnitude(v2);
    var m1, m2 := sqrt(Dot(v1, v1)), sqrt(Dot(v2, v2));
    if m1 * m2 == 0.0 {
      assert m1 == 0.0 || m2 == 0.0;
    }
  }

  /** The dot product does not depend on the order of its arguments. */
  lemma {:induction false} DotSymmetric(v1: Vector, v2: Vector)
    ensures Dot(v1, v2) == Dot(v2, v1)
  {
    if |v1| > 0 && |v2| > 0 {
      DotSymmetric(v1[1..], v2[1..]);
    }
  }

  /** Cosine similarity is symmetric. */
  lemma CosineSymmetric(v1: Vector, v2: Vector, sqrt: real -> real)
    ensures CosineSimilarity(v1, v2, sqrt) == CosineSimilarity(v2, v1, sqrt)
  {
    DotSymmetric(v1, v2);
  }

  /** A non-zero vector is at similarity exactly 1.0 with itself. */
  lemma SelfSimilarity(v: Vector, sqrt: real -> real)
    requires ExactSqrt(sqrt)
    requires |v| > 0 && !AllZero(v)
    ensures CosineSimilarity(v, v, sqrt) == 1.0
  {
    SquaredMagnitude(v);
    var s := Dot(v, v);
    var m := sqrt(s);
    assert m * m == s;
    assert s > 0.0;
    assert m * m != 0.0;
    assert CosineSimilarity(v, v, sqrt) == s / (m * m);
    assert s / (m * m) == 1.0;
  }

  /**
   * The quadratic form t·a² − 2·d·a·b + s·b² is non-negative when s, t >= 0 and
   * d² <= s·t (the inductive step of Cauchy–Schwarz).
   */
  lemma QuadraticNonnegative(a: real, b: real, s: real, t: real, d: real)
    requires s >= 0.0 && t >= 0.0 && d * d <= s * t
    ensures t * a * a - 2.0 * d * a * b + s * b * b >= 0.0
  {
    var q := t * a * a - 2.0 * d * a * b + s * b * b;
    if t > 0.0 {
      var w := t * a - d * b;
      assert t * q == w * w + (s * t - d * d) * (b * b);
      assert w * w >= 0.0;
      assert (s * t - d * d) * (b * b) >= 0.0;
      assert t * q >= 0.0;
    } else {
      assert s * t == 0.0;
      if d != 0.0 {
        assert d * d > 0.0;
      }
      assert q == s * (b * b);
    }
  }

  /** Cauchy–Schwarz: the squared dot product is at most the product of the squared magnitudes. */
  lemma {:induction false} CauchySchwarz(v1: Vector, v2: Vector)
    requires |v1| == |v2|
    ensures Dot(v1, v2) * Dot(v1, v2) <= Dot(v1, v1) * Dot(v2, v2)
  {
    if |v1| > 0 {
      var a, b := v1[0], v2[0];
      var d, s, t := Dot(v1[1..], v2[1..]), Dot(v1[1..], v1[1..]), Dot(v2[1..], v2[1..]);
      CauchySchwarz(v1[1..], v2[1..]);
      SquaredMagnitude(v1[1..]);
      SquaredMagnitude(v2[1..]);
      QuadraticNonnegative(a, b, s, t, d);
      assert (a * a + s) * (b * b + t) == a * a * (b * b) + t * a * a + s * b * b + s * t;
      assert (a * b + d) * (a * b + d) == a * a * (b * b) + 2.0 * d * a * b + d * d;
    }
  }

  /** With the exact square root, the similarity lies in [-1.0, 1.0]. */
  lemma CosineBounded(v1: Vector, v2: Vector, sqrt: real -> real)
    requires ExactSqrt(sqrt)
    ensures -1.0 <= CosineSimilarity(v1, v2, sqrt) <= 1.0
  {
    if |v1| > 0 && |v2| > 0 && |v1| == |v2| {
      var s1, s2, d := Dot(v1, v1), Dot(v2, v2), Dot(v1, v2);
      assert CosineSimilarity(v1, v2, sqrt) == Ratio(d, sqrt(s1), sqrt(s2));
      SquaredMagnitude(v1);
      SquaredMagnitude(v2);
      CauchySchwarz(v1, v2);
      RatioBounded(d, s1, s2, sqrt);
    }
  }

  /** With the exact square root, d² <= s1·s2 keeps the quotient of d by the roots in [-1, 1]. */
  lemma RatioBounded(d: real, s1: real, s2: real, sqrt: real -> real)
    requires ExactSqrt(sqrt)
    requires s1 >= 0.0 && s2 >= 0.0 && d * d <= s1 * s2
    ensures -1.0 <= Ratio(d, sqrt(s1), sqrt(s2)) <= 1.0
  {
    BoundFromMagnitudes(d, s1, s2, sqrt(s1), sqrt(s2));
  }

  /**
   * If m1, m2 are the non-negative roots of s1, s2, their product is non-zero and
   * d² <= s1·s2, then d / (m1·m2) lies in [-1, 1].
   */
  lemma BoundFromMagnitudes(d: real, s1: real, s2: real, m1: real, m2: real)
    requires m1 >= 0.0 && m2 >= 0.0 && m1 * m1 == s1 && m2 * m2 == s2
    requires d * d <= s1 * s2
    ensures m1 * m2 != 0.0 ==> -1.0 <= d / (m1 * m2) <= 1.0
  {
    var p := m1 * m2;
    if p != 0.0 {
      assert p * p == s1 * s2 by {
        assert p * p == (m1 * m1) * (m2 * m2);
      }
      assert p > 0.0;
      UnitRatio(d, p);
    }
  }

  /** From d² <= p² and p > 0 it follows that d / p lies in [-1, 1]. */
  lemma UnitRatio(d: real, p: real)
    requires p > 0.0 && d * d <= p * p
    ensures -1.0 <= d / p <= 1.0
  {
    assert -p <= d <= p;
  }
}
