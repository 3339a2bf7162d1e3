/** The matrix calculus behind one attention head: the three products of a
    bilinear form, and the adjoint of softmax attention.  Matrices are
    functions of a row and a column; their sizes are passed separately. */
module AttentionAdjoint {
  import opened RealSums

  type Vector = int -> real
  type Matrix = (int, int) -> real

  function Row(X: Matrix, i: int): Vector {
    j => X(i, j)
  }

  function Transpose(X: Matrix): Matrix {
    (j, i) => X(i, j)
  }

  function Prod(p: Vector, s: Vector): Vector {
    j => p(j) * s(j)
  }

  function Dot(n: nat, p: Vector, s: Vector): real {
    Sum(n, Prod(p, s))
  }

  /** A * Y, with n the shared dimension. */
  function Mul(n: nat, A: Matrix, Y: Matrix): Matrix {
    (i, c) => Dot(n, Row(A, i), Row(Transpose(Y), c))
  }

  /** A^T * X, with n the shared dimension. */
  function MulTN(n: nat, A: Matrix, X: Matrix): Matrix {
    (j, c) => Dot(n, Row(Transpose(A), j), Row(Transpose(X), c))
  }

  /** X * Y^T, with h the shared dimension. */
  function MulNT(h: nat, X: Matrix, Y: Matrix): Matrix {
    (i, j) => Dot(h, Row(X, i), Row(Y, j))
  }

  /** Row i of X against row i of Y. */
  function RowInner(n: nat, X: Matrix, Y: Matrix): Vector {
    i => Dot(n, Row(X, i), Row(Y, i))
  }

  /** The Frobenius inner product of two m-by-n matrices. */
  function Inner(m: nat, n: nat, X: Matrix, Y: Matrix): real {
    Sum(m, RowInner(n, X, Y))
  }

  lemma DotExt(n: nat, p: Vector, s: Vector, q: Vector, t: Vector)
    requires forall j | 0 <= j < n :: p(j) * s(j) == q(j) * t(j)
    ensures Dot(n, p, s) == Dot(n, q, t)
  {
    SumExt(n, Prod(p, s), Prod(q, t));
  }

  lemma DotLeft(n: nat, p: Vector, q: Vector, s: Vector)
    requires forall j | 0 <= j < n :: p(j) == q(j)
    ensures Dot(n, p, s) == Dot(n, q, s)
  {
    SumExt(n, Prod(p, s), Prod(q, s));
  }

  lemma DotIs(n: nat, p: Vector, s: Vector, f: Vector)
    requires forall j | 0 <= j < n :: p(j) * s(j) == f(j)
    ensures Dot(n, p, s) == Sum(n, f)
  {
    SumExt(n, Prod(p, s), f);
  }

  lemma InnerExt(m: nat, n: nat, X: Matrix, Y: Matrix, Z: Matrix, W: Matrix)
    requires forall i, j | 0 <= i < m && 0 <= j < n :: X(i, j) * Y(i, j) == Z(i, j) * W(i, j)
    ensures Inner(m, n, X, Y) == Inner(m, n, Z, W)
  {
    forall i | 0 <= i < m
      ensures RowInner(n, X, Y)(i) == RowInner(n, Z, W)(i)
    {
      DotExt(n, Row(X, i), Row(Y, i), Row(Z, i), Row(W, i));
    }
    SumExt(m, RowInner(n, X, Y), RowInner(n, Z, W));
  }

  lemma InnerIs(m: nat, n: nat, X: Matrix, Y: Matrix, f: Matrix)
    requires forall i, j | 0 <= i < m && 0 <= j < n :: X(i, j) * Y(i, j) == f(i, j)
    ensures Inner(m, n, X, Y) == Sum2(m, n, f)
  {
    forall i | 0 <= i < m
      ensures RowInner(n, X, Y)(i) == RowSum(n, f)(i)
    {
      DotIs(n, Row(X, i), Row(Y, i), j => f(i, j));
    }
    SumExt(m, RowInner(n, X, Y), RowSum(n, f));
  }

  lemma InnerComm(m: nat, n: nat, X: Matrix, Y: Matrix)
    ensures Inner(m, n, X, Y) == Inner(m, n, Y, X)
  {
    InnerExt(m, n, X, Y, Y, X);
  }

  lemma InnerTranspose(m: nat, n: nat, X: Matrix, Y: Matrix)
    ensures Inner(m, n, X, Y) == Inner(n, m, Transpose(X), Transpose(Y))
  {
    var f: Matrix := (i, j) => X(i, j) * Y(i, j);
    InnerIs(m, n, X, Y, f);
    InnerIs(n, m, Transpose(X), Transpose(Y), Transpose(f));
    Sum2Swap(m, n, f, Transpose(f));
  }

  lemma InnerAdd(m: nat, n: nat, X: Matrix, Y: Matrix, Z: Matrix)
    ensures Inner(m, n, X, Plus(Y, Z)) == Inner(m, n, X, Y) + Inner(m, n, X, Z)
  {
    var f: Matrix := (i, j) => X(i, j) * Y(i, j);
    var g: Matrix := (i, j) => X(i, j) * Z(i, j);
    InnerIs(m, n, X, Y, f);
    InnerIs(m, n, X, Z, g);
    var h: Matrix := (i, j) => f(i, j) + g(i, j);
    InnerIs(m, n, X, Plus(Y, Z), h);
    Sum2Add(m, n, f, g, h);
  }

  /** a . (M x), as one double sum. */
  lemma DotMul(m: nat, h: nat, a: Vector, x: Vector, M: Matrix, b: Vector, t: Matrix)
    requires forall j | 0 <= j < m :: b(j) == Dot(h, x, Row(M, j))
    requires forall j, c | 0 <= j < m && 0 <= c < h :: t(j, c) == a(j) * (x(c) * M(j, c))
    ensures Dot(m, a, b) == Sum2(m, h, t)
  {
    forall j | 0 <= j < m
      ensures a(j) * b(j) == RowSum(h, t)(j)
    {
      SumScale(h, a(j), Prod(x, Row(M, j)));
      SumExt(h, c => t(j, c), Scaled(a(j), Prod(x, Row(M, j))));
    }
    DotIs(m, a, b, RowSum(h, t));
  }

  /** <A, X Y^T> == <X, A Y>: one row of the claim. */
  lemma TriRow(m: nat, h: nat, A: Matrix, X: Matrix, Y: Matrix, i: int)
    ensures RowInner(m, A, MulNT(h, X, Y))(i) == RowInner(h, X, Mul(m, A, Y))(i)
  {
    var t: Matrix := (j, c) => A(i, j) * (X(i, c) * Y(j, c));
    var u: Matrix := (c, j) => X(i, c) * (A(i, j) * Y(j, c));
    DotMul(m, h, Row(A, i), Row(X, i), Y, Row(MulNT(h, X, Y), i), t);
    DotMul(h, m, Row(X, i), Row(A, i), Transpose(Y), Row(Mul(m, A, Y), i), u);
    Sum2Swap(m, h, t, u);
  }

  /** <A, X Y^T> == <X, A Y>, with A n-by-m, X n-by-h and Y m-by-h. */
  lemma TriRows(n: nat, m: nat, h: nat, A: Matrix, X: Matrix, Y: Matrix)
    ensures Inner(n, m, A, MulNT(h, X, Y)) == Inner(n, h, X, Mul(m, A, Y))
  {
    forall i | 0 <= i < n
      ensures RowInner(m, A, MulNT(h, X, Y))(i) == RowInner(h, X, Mul(m, A, Y))(i)
    {
      TriRow(m, h, A, X, Y, i);
    }
    SumExt(n, RowInner(m, A, MulNT(h, X, Y)), RowInner(h, X, Mul(m, A, Y)));
  }

  /** <A, X Y^T> == <Y, A^T X>. */
  lemma TriCols(n: nat, m: nat, h: nat, A: Matrix, X: Matrix, Y: Matrix)
    ensures Inner(n, m, A, MulNT(h, X, Y)) == Inner(m, h, Y, MulTN(n, A, X))
  {
    var B := MulNT(h, X, Y);
    InnerTranspose(n, m, A, B);
    TriRows(m, n, h, Transpose(A), Y, X);
    forall i, j | 0 <= i < n && 0 <= j < m
      ensures Transpose(B)(j, i) == MulNT(h, Y, X)(j, i)
    {
      DotExt(h, Row(X, i), Row(Y, j), Row(Y, j), Row(X, i));
    }
    InnerExt(m, n, Transpose(A), Transpose(B), Transpose(A), MulNT(h, Y, X));
    InnerExt(m, h, Y, Mul(n, Transpose(A), X), Y, MulTN(n, A, X));
  }

  /** Entrywise S / a. */
  function Over(S: Matrix, a: real): Matrix
    requires a != 0.0
  {
    (i, j) => S(i, j) / a
  }

  function Plus(X: Matrix, Y: Matrix): Matrix {
    (i, j) => X(i, j) + Y(i, j)
  }

  /** The derivative of a row softmax with value P in the direction S'. */
  function SoftmaxTangent(n: nat, P: Matrix, S': Matrix): Matrix {
    (i, j) => P(i, j) * (S'(i, j) - RowInner(n, P, S')(i))
  }

  /** P * (dP - rowsum(O * dO)), the decomposed softmax gradient. */
  function SoftmaxGradient(h: nat, P: Matrix, dP: Matrix, O: Matrix, dO: Matrix): Matrix {
    (i, j) => P(i, j) * (dP(i, j) - RowInner(h, O, dO)(i))
  }

  /** The derivative of the attention output P V, when P has derivative P'. */
  function OutputTangent(n: nat, P: Matrix, P': Matrix, V: Matrix, V': Matrix): Matrix {
    Plus(Mul(n, P, V'), Mul(n, P', V))
  }

  /** The derivative of the scaled score Q K^T / a. */
  function ScoreTangent(h: nat, a: real, Q: Matrix, Q': Matrix, K: Matrix, K': Matrix): Matrix
    requires a != 0.0
  {
    Over(Plus(MulNT(h, Q, K'), MulNT(h, Q', K)), a)
  }

  /** rowsum(O * dO) == rowsum(P * dP) when O = P V and dP = dO V^T. */
  lemma CorrectionIsRowSum(n: nat, h: nat, P: Matrix, V: Matrix, dO: Matrix, i: int)
    ensures RowInner(h, Mul(n, P, V), dO)(i) == RowInner(n, P, MulNT(h, dO, V))(i)
  {
    TriRow(n, h, P, dO, V, i);
    DotExt(h, Row(Mul(n, P, V), i), Row(dO, i), Row(dO, i), Row(Mul(n, P, V), i));
  }

  /** p * (s - c), entrywise. */
  function Centred(p: Vector, s: Vector, c: real): Vector {
    j => p(j) * (s(j) - c)
  }

  lemma Distribute(p: real, s: real, c: real, d: real)
    ensures p * (s - c) * d == p * s * d + -c * (p * d)
  {
  }

  lemma CentredAt(p: Vector, s: Vector, d: Vector, c: real, j: int)
    ensures Centred(p, s, c)(j) * d(j) == Added(Prod(Prod(p, s), d), Scaled(-c, Prod(p, d)))(j)
  {
    Distribute(p(j), s(j), c, d(j));
    assert Centred(p, s, c)(j) == p(j) * (s(j) - c);
    assert Prod(Prod(p, s), d)(j) == p(j) * s(j) * d(j);
    assert Scaled(-c, Prod(p, d))(j) == -c * (p(j) * d(j));
  }

  lemma CentredDot(n: nat, p: Vector, s: Vector, d: Vector, c: real)
    ensures Dot(n, Centred(p, s, c), d) == Dot(n, Prod(p, s), d) - c * Dot(n, p, d)
  {
    hide Sum, Added, Scaled, Prod, Centred;
    SumScale(n, -c, Prod(p, d));
    SumAdd(n, Prod(Prod(p, s), d), Scaled(-c, Prod(p, d)));
    forall j | 0 <= j < n
      ensures Centred(p, s, c)(j) * d(j) == Added(Prod(Prod(p, s), d), Scaled(-c, Prod(p, d)))(j)
    {
      CentredAt(p, s, d, c, j);
    }
    DotIs(n, Centred(p, s, c), d, Added(Prod(Prod(p, s), d), Scaled(-c, Prod(p, d))));
  }

  /** The derivative of softmax is a symmetric map. */
  lemma SoftmaxSymmetric(n: nat, p: Vector, s: Vector, d: Vector)
    ensures Dot(n, Centred(p, s, Dot(n, p, s)), d) == Dot(n, Centred(p, d, Dot(n, p, d)), s)
  {
    CentredDot(n, p, s, d, Dot(n, p, s));
    CentredDot(n, p, d, s, Dot(n, p, d));
    DotExt(n, Prod(p, s), d, Prod(p, d), s);
  }

  /** <P', dP> == <dS, S'>: the decomposed gradient is the adjoint of softmax. */
  lemma SoftmaxAdjoint(n: nat, h: nat, P: Matrix, S': Matrix, V: Matrix, dO: Matrix)
    ensures var dP := MulNT(h, dO, V);
            Inner(n, n, SoftmaxTangent(n, P, S'), dP)
            == Inner(n, n, SoftmaxGradient(h, P, dP, Mul(n, P, V), dO), S')
  {
    var dP := MulNT(h, dO, V);
    var T := SoftmaxTangent(n, P, S');
    var dS := SoftmaxGradient(h, P, dP, Mul(n, P, V), dO);
    forall i | 0 <= i < n
      ensures RowInner(n, T, dP)(i) == RowInner(n, dS, S')(i)
    {
      var p, s, d := Row(P, i), Row(S', i), Row(dP, i);
      SoftmaxSymmetric(n, p, s, d);
      assert RowInner(n, P, S')(i) == Dot(n, p, s);
      CorrectionIsRowSum(n, h, P, V, dO, i);
      DotLeft(n, Row(T, i), Centred(p, s, Dot(n, p, s)), d);
      DotLeft(n, Row(dS, i), Centred(p, d, Dot(n, p, d)), s);
    }
    SumExt(n, RowInner(n, T, dP), RowInner(n, dS, S'));
  }

  /** <dO, O'> == <dS, S'> + <P^T dO, V'>. */
  lemma OutputAdjoint(n: nat, h: nat, P: Matrix, S': Matrix, V: Matrix, V': Matrix, dO: Matrix)
    ensures var dS := SoftmaxGradient(h, P, MulNT(h, dO, V), Mul(n, P, V), dO);
            Inner(n, h, dO, OutputTangent(n, P, SoftmaxTangent(n, P, S'), V, V'))
            == Inner(n, n, dS, S') + Inner(n, h, MulTN(n, P, dO), V')
  {
    var P' := SoftmaxTangent(n, P, S');
    InnerAdd(n, h, dO, Mul(n, P, V'), Mul(n, P', V));
    TriRows(n, n, h, P, dO, V');
    TriCols(n, n, h, P, dO, V');
    InnerComm(n, h, V', MulTN(n, P, dO));
    TriRows(n, n, h, P', dO, V);
    SoftmaxAdjoint(n, h, P, S', V, dO);
  }

  lemma MoveDivisor(x: real, y: real, a: real)
    requires a != 0.0
    ensures x * (y / a) == (x / a) * y
  {
  }

  /** <dS, S'> == <(dS/a) K, Q'> + <(dS/a)^T Q, K'>. */
  lemma ScoreAdjoint(n: nat, h: nat, a: real, dS: Matrix, Q: Matrix, Q': Matrix, K: Matrix, K': Matrix)
    requires a != 0.0
    ensures Inner(n, n, dS, ScoreTangent(h, a, Q, Q', K, K'))
            == Inner(n, h, Mul(n, Over(dS, a), K), Q') + Inner(n, h, MulTN(n, Over(dS, a), Q), K')
  {
    var G := Over(dS, a);
    var X, Y := MulNT(h, Q, K'), MulNT(h, Q', K);
    forall i, j | 0 <= i < n && 0 <= j < n
      ensures dS(i, j) * Over(Plus(X, Y), a)(i, j) == G(i, j) * Plus(X, Y)(i, j)
    {
      MoveDivisor(dS(i, j), Plus(X, Y)(i, j), a);
    }
    InnerExt(n, n, dS, Over(Plus(X, Y), a), G, Plus(X, Y));
    InnerAdd(n, n, G, X, Y);
    TriCols(n, n, h, G, Q, K');
    InnerComm(n, h, K', MulTN(n, G, Q));
    TriRows(n, n, h, G, Q', K);
    InnerComm(n, h, Q', Mul(n, G, K));
  }

  /** One attention head: <dO, O'> == <dQ, Q'> + <dK, K'> + <dV, V'>. */
  lemma HeadAdjoint(n: nat, h: nat, a: real, P: Matrix, Q: Matrix, Q': Matrix, K: Matrix, K': Matrix,
                    V: Matrix, V': Matrix, dO: Matrix)
    requires a != 0.0
    ensures var P' := SoftmaxTangent(n, P, ScoreTangent(h, a, Q, Q', K, K'));
            var dS := SoftmaxGradient(h, P, MulNT(h, dO, V), Mul(n, P, V), dO);
            Inner(n, h, dO, OutputTangent(n, P, P', V, V'))
            == Inner(n, h, Mul(n, Over(dS, a), K), Q')
               + Inner(n, h, MulTN(n, Over(dS, a), Q), K')
               + Inner(n, h, MulTN(n, P, dO), V')
  {
    var dS := SoftmaxGradient(h, P, MulNT(h, dO, V), Mul(n, P, V), dO);
    OutputAdjoint(n, h, P, ScoreTangent(h, a, Q, Q', K, K'), V, V', dO);
    ScoreAdjoint(n, h, a, dS, Q, Q', K, K');
  }

  /** A row of the softmax gradient sums to zero when that row of P sums to one. */
  lemma GradientRowSumsToZero(n: nat, h: nat, P: Matrix, V: Matrix, dO: Matrix, i: int)
    requires Sum(n, Row(P, i)) == 1.0
    ensures Sum(n, Row(SoftmaxGradient(h, P, MulNT(h, dO, V), Mul(n, P, V), dO), i)) == 0.0
  {
    var dP := MulNT(h, dO, V);
    var dS := SoftmaxGradient(h, P, dP, Mul(n, P, V), dO);
    var p, d, one: Vector := Row(P, i), Row(dP, i), j => 1.0;
    CorrectionIsRowSum(n, h, P, V, dO, i);
    CentredDot(n, p, d, one, Dot(n, p, d));
    DotIs(n, Centred(p, d, Dot(n, p, d)), one, Row(dS, i));
    DotIs(n, p, one, p);
    DotIs(n, Prod(p, d), one, Prod(p, d));
  }
}
