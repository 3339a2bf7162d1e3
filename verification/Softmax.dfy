/** Row softmax as the SoftMax operation defines it with mode inf_as_zero, its
    tangent, and the probabilities recovered from its stats output. */
module Softmax {
  import opened Common
  import opened RealSums
  import opened DualNumbers
  import opened AttentionAdjoint

  /** exp(row[j] - max) */
  function Weight(m: ExpLog, n: nat, row: int -> Num): int -> Num {
    j => Exponential(m, Minus(row(j), Largest(n, row)))
  }

  function Probability(m: ExpLog, n: nat, row: int -> Num, j: int): Num {
    if Largest(n, row).NegInf? then Fin(0.0, 0.0)
    else Quotient(Weight(m, n, row)(j), Total(n, Weight(m, n, row)))
  }

  /** max + log(sum of exp(row - max)), and 0 for a row that is all -infinity. */
  function Stats(m: ExpLog, n: nat, row: int -> Num): Num {
    if Largest(n, row).NegInf? then Fin(0.0, 0.0)
    else DualNumbers.Plus(Largest(n, row), Logarithm(m, Total(n, Weight(m, n, row))))
  }

  /** Every entry is finite or masked, and a finite entry has its tangent in T. */
  ghost predicate TangentOf(n: nat, row: int -> Num, T: Vector) {
    forall j | 0 <= j < n :: !row(j).Undef? && (row(j).Fin? ==> row(j).d == T(j))
  }

  ghost predicate SomeFinite(n: nat, row: int -> Num) {
    exists j :: 0 <= j < n && row(j).Fin?
  }

  // Arithmetic of one quotient

  lemma QuotientIs(q: real, X: real, a: real)
    requires X != 0.0 && q * X == a
    ensures a / X == q
  {
  }

  lemma Rescale(x: real, p: real, X: real, t: real)
    requires X != 0.0 && p == x / X
    ensures X * p == x
    ensures X * (p * t) == x * t
  {
    assert X * p == x;
    assert X * (p * t) == (X * p) * t;
  }

  lemma UnitFactor(s: real, X: real, Y: real)
    requires X > 0.0 && X * s == Y && X == Y
    ensures s == 1.0
  {
    QuotientIs(s, X, X);
  }

  lemma NonNegativeQuotient(x: real, X: real)
    requires x >= 0.0 && X > 0.0
    ensures x / X >= 0.0
  {
  }

  lemma QuotientNumerator(x: real, t: real, c: real, X: real, py: real, q: real)
    requires x == q * X
    ensures q * (t - py) * X == x * (t - c) - q * (X * py - c * X)
  {
    calc {
      q * (t - py) * X;
      q * X * t - q * (X * py);
      q * X * (t - c) - q * (X * py - c * X);
      x * (t - c) - q * (X * py - c * X);
    }
  }

  /** The quotient rule for x / X, with X' = X py - c X and x' = x (t - c). */
  lemma QuotientRule(num: Num, den: Num, t: real, c: real, py: real)
    requires num.Fin? && num.d == num.v * (t - c)
    requires den.Fin? && den.v > 0.0 && den.d == den.v * py - c * den.v
    ensures Quotient(num, den) == Fin(num.v / den.v, num.v / den.v * (t - py))
  {
    var x, X := num.v, den.v;
    var q := x / X;
    QuotientNumerator(x, t, c, X, py, q);
    QuotientIs(q * (t - py), X, x * (t - c) - q * (X * py - c * X));
  }

  // Normalising a vector of weights

  function Shift(T: Vector, c: real): Vector {
    j => T(j) - c
  }

  lemma ShiftedDot(n: nat, x: Vector, T: Vector, c: real)
    ensures Dot(n, x, Shift(T, c)) == Dot(n, x, T) - c * Sum(n, x)
  {
    SumScale(n, -c, x);
    SumAdd(n, Prod(x, T), Scaled(-c, x));
    forall j | 0 <= j < n
      ensures Prod(x, Shift(T, c))(j) == Added(Prod(x, T), Scaled(-c, x))(j)
    {
      assert x(j) * (T(j) - c) == x(j) * T(j) + -c * x(j);
    }
    SumExt(n, Prod(x, Shift(T, c)), Added(Prod(x, T), Scaled(-c, x)));
  }

  /** X (p . T) = x . T when p = x / X. */
  lemma NormalisedDot(n: nat, x: Vector, p: Vector, X: real, T: Vector)
    requires X != 0.0
    requires forall j | 0 <= j < n :: p(j) == x(j) / X
    ensures X * Dot(n, p, T) == Dot(n, x, T)
  {
    forall j | 0 <= j < n
      ensures Scaled(X, Prod(p, T))(j) == Prod(x, T)(j)
    {
      Rescale(x(j), p(j), X, T(j));
    }
    SumExt(n, Scaled(X, Prod(p, T)), Prod(x, T));
    SumScale(n, X, Prod(p, T));
  }

  lemma NormalisedSum(n: nat, x: Vector, p: Vector, X: real)
    requires X > 0.0 && Sum(n, x) == X
    requires forall j | 0 <= j < n :: p(j) == x(j) / X
    ensures Sum(n, p) == 1.0
  {
    forall j | 0 <= j < n
      ensures Scaled(X, p)(j) == x(j)
    {
      Rescale(x(j), p(j), X, 1.0);
    }
    SumExt(n, Scaled(X, p), x);
    SumScale(n, X, p);
    UnitFactor(Sum(n, p), X, Sum(n, x));
  }

  /** x' = x (T - c) sums to x . T - c X. */
  lemma TangentSum(n: nat, x: Vector, x': Vector, T: Vector, c: real)
    requires forall j | 0 <= j < n :: x'(j) == x(j) * (T(j) - c)
    ensures Sum(n, x') == Dot(n, x, T) - c * Sum(n, x)
  {
    SumExt(n, x', Prod(x, Shift(T, c)));
    ShiftedDot(n, x, T, c);
  }

  /** Weights whose tangents are x (T - c), for any shift c. */
  ghost predicate ShiftedTangents(n: nat, w: int -> Num, T: Vector, c: real) {
    forall j | 0 <= j < n :: w(j).Fin? && w(j).v >= 0.0 && w(j).d == w(j).v * (T(j) - c)
  }

  lemma TotalOfWeights(n: nat, w: int -> Num, T: Vector, c: real, k: int) returns (x: Vector)
    requires ShiftedTangents(n, w, T, c)
    requires 0 <= k < n && w(k).v > 0.0
    ensures forall j | 0 <= j < n :: x(j) == w(j).v
    ensures Total(n, w) == Fin(Sum(n, x), Dot(n, x, T) - c * Sum(n, x))
    ensures Sum(n, x) > 0.0
  {
    x := j => Val(w(j));
    var x' := j => Tan(w(j));
    TotalIs(n, w, x, x');
    TangentSum(n, x, x', T, c);
    SumPositive(n, x, k);
  }

  lemma Divide(n: nat, w: int -> Num, T: Vector, c: real, k: int) returns (p: Vector)
    requires ShiftedTangents(n, w, T, c)
    requires 0 <= k < n && w(k).v > 0.0
    ensures Total(n, w).Fin? && Total(n, w).v > 0.0
    ensures Total(n, w).d == Total(n, w).v * Dot(n, p, T) - c * Total(n, w).v
    ensures forall j | 0 <= j < n :: p(j) == w(j).v / Total(n, w).v
    ensures forall j | 0 <= j < n :: p(j) >= 0.0
    ensures Sum(n, p) == 1.0
  {
    var x := TotalOfWeights(n, w, T, c, k);
    var X := Sum(n, x);
    p := j => x(j) / X;
    forall j | 0 <= j < n
      ensures p(j) >= 0.0
    {
      NonNegativeQuotient(x(j), X);
    }
    NormalisedSum(n, x, p, X);
    NormalisedDot(n, x, p, X, T);
  }

  /** The normalised weights form a distribution p with tangent p (T - p . T):
      the shift c cancels. */
  lemma Normalise(n: nat, w: int -> Num, T: Vector, c: real, k: int) returns (p: Vector)
    requires ShiftedTangents(n, w, T, c)
    requires 0 <= k < n && w(k).v > 0.0
    ensures Total(n, w).Fin? && Total(n, w).v > 0.0
    ensures forall j | 0 <= j < n ::
              Quotient(w(j), Total(n, w)) == Fin(p(j), Centred(p, T, Dot(n, p, T))(j))
    ensures forall j | 0 <= j < n :: p(j) >= 0.0
    ensures Sum(n, p) == 1.0
  {
    p := Divide(n, w, T, c, k);
    forall j | 0 <= j < n
      ensures Quotient(w(j), Total(n, w)) == Fin(p(j), Centred(p, T, Dot(n, p, T))(j))
    {
      CentredQuotient(w(j), Total(n, w), T, c, p, Dot(n, p, T), j);
    }
  }

  lemma CentredQuotient(num: Num, den: Num, T: Vector, c: real, p: Vector, py: real, j: int)
    requires num.Fin? && num.d == num.v * (T(j) - c)
    requires den.Fin? && den.v > 0.0 && den.d == den.v * py - c * den.v
    requires p(j) == num.v / den.v
    ensures Quotient(num, den) == Fin(p(j), Centred(p, T, py)(j))
  {
    QuotientRule(num, den, T(j), c, py);
  }

  // The softmax of a row

  lemma WeightIs(m: ExpLog, n: nat, row: int -> Num, T: Vector, j: int)
    requires Lawful(m) && TangentOf(n, row, T) && SomeFinite(n, row)
    requires 0 <= j < n
    ensures Largest(n, row).Fin?
    ensures var w := Weight(m, n, row)(j);
            && w.Fin?
            && (if row(j).Fin? then w.v > 0.0 else w.v == 0.0)
            && w.d == w.v * (T(j) - Largest(n, row).d)
  {
    LargestIs(n, row);
    if row(j).Fin? {
      assert Minus(row(j), Largest(n, row)).d == T(j) - Largest(n, row).d;
    }
  }

  lemma WeightsAreShifted(m: ExpLog, n: nat, row: int -> Num, T: Vector) returns (k: int)
    requires Lawful(m) && TangentOf(n, row, T) && SomeFinite(n, row)
    ensures Largest(n, row).Fin?
    ensures ShiftedTangents(n, Weight(m, n, row), T, Largest(n, row).d)
    ensures 0 <= k < n && Weight(m, n, row)(k).v > 0.0
  {
    k :| 0 <= k < n && row(k).Fin?;
    forall j | 0 <= j < n
      ensures var w := Weight(m, n, row)(j);
              w.Fin? && (if row(j).Fin? then w.v > 0.0 else w.v == 0.0) && w.d == w.v * (T(j) - Largest(n, row).d)
    {
      WeightIs(m, n, row, T, j);
    }
  }

  /** The probabilities p of a row are non-negative, have tangent
      p * (T - rowsum(p * T)), and sum to one, unless the whole row is masked:
      then they are all zero. */
  lemma SoftmaxRow(m: ExpLog, n: nat, row: int -> Num, T: Vector) returns (p: Vector)
    requires Lawful(m) && TangentOf(n, row, T)
    ensures forall j | 0 <= j < n ::
              Probability(m, n, row, j) == Fin(p(j), Centred(p, T, Dot(n, p, T))(j))
    ensures forall j | 0 <= j < n :: p(j) >= 0.0
    ensures Sum(n, p) == if SomeFinite(n, row) then 1.0 else 0.0
  {
    LargestIs(n, row);
    if SomeFinite(n, row) {
      var k := WeightsAreShifted(m, n, row, T);
      p := Normalise(n, Weight(m, n, row), T, Largest(n, row).d, k);
    } else {
      p := j => 0.0;
      SumZero(n, p);
    }
  }

  /** exp(row - stats) gives the probabilities back, whatever the tangents of
      the copies of row and stats that are read. */
  lemma Recovered(m: ExpLog, n: nat, row: int -> Num, T: Vector, j: int, x: Num, s: Num)
    requires Lawful(m) && TangentOf(n, row, T)
    requires 0 <= j < n
    requires SameValue(x, row(j)) && SameValue(s, Stats(m, n, row))
    ensures SameValue(Exponential(m, Minus(x, s)), Probability(m, n, row, j))
  {
    LargestIs(n, row);
    if SomeFinite(n, row) {
      TotalIsPositive(m, n, row, T);
      WeightIs(m, n, row, T, j);
      if row(j).Fin? {
        RecoveredQuotient(m, x.v, s.v, Largest(n, row).v, Total(n, Weight(m, n, row)).v, Weight(m, n, row)(j).v);
      }
    }
  }

  lemma TotalIsPositive(m: ExpLog, n: nat, row: int -> Num, T: Vector)
    requires Lawful(m) && TangentOf(n, row, T) && SomeFinite(n, row)
    ensures var total := Total(n, Weight(m, n, row)); total.Fin? && total.v > 0.0
  {
    var w := Weight(m, n, row);
    var x, x' := (j: int) => Val(w(j)), (j: int) => Tan(w(j));
    forall j | 0 <= j < n
      ensures w(j).Fin? && x(j) >= 0.0 && (row(j).Fin? ==> x(j) > 0.0)
    {
      WeightIs(m, n, row, T, j);
    }
    TotalIs(n, w, x, x');
    var k :| 0 <= k < n && row(k).Fin?;
    SumPositive(n, x, k);
  }

  lemma RecoveredQuotient(m: ExpLog, v: real, s: real, max: real, X: real, w: real)
    requires Lawful(m)
    requires X > 0.0 && s == max + m.log(X) && w == m.exp(v - max)
    ensures m.exp(v - s) == w / X
  {
    assert TurnsSumIntoProduct(m.exp, v - s, m.log(X));
    assert v - s + m.log(X) == v - max;
    QuotientIs(m.exp(v - s), X, w);
  }
}
