/** Finite sums of real-valued functions, and the exchange and bilinearity
    laws that the attention models need. */
module RealSums {

  /** f(0) + ... + f(n-1). */
  function Sum(n: nat, f: int -> real): real {
    if n == 0 then 0.0 else Sum(n - 1, f) + f(n - 1)
  }

  /** Row i of a grid with n columns, summed. */
  function RowSum(n: nat, f: (int, int) -> real): int -> real {
    i => Sum(n, j => f(i, j))
  }

  /** The iterated sum over an m-by-n grid, rows first. */
  function Sum2(m: nat, n: nat, f: (int, int) -> real): real {
    Sum(m, RowSum(n, f))
  }

  function Scaled(a: real, f: int -> real): int -> real {
    i => a * f(i)
  }

  function Added(f: int -> real, g: int -> real): int -> real {
    i => f(i) + g(i)
  }

  lemma SumExt(n: nat, f: int -> real, g: int -> real)
    requires forall i | 0 <= i < n :: f(i) == g(i)
    ensures Sum(n, f) == Sum(n, g)
  {
  }

  lemma SumAdd(n: nat, f: int -> real, g: int -> real)
    ensures Sum(n, Added(f, g)) == Sum(n, f) + Sum(n, g)
  {
  }

  lemma SumScale(n: nat, a: real, f: int -> real)
    ensures Sum(n, Scaled(a, f)) == a * Sum(n, f)
  {
  }

  lemma SumZero(n: nat, f: int -> real)
    requires forall i | 0 <= i < n :: f(i) == 0.0
    ensures Sum(n, f) == 0.0
  {
  }

  lemma SumMono(n: nat, f: int -> real, g: int -> real)
    requires forall i | 0 <= i < n :: f(i) <= g(i)
    ensures Sum(n, f) <= Sum(n, g)
  {
  }

  lemma SumPositive(n: nat, f: int -> real, k: nat)
    requires forall i | 0 <= i < n :: f(i) >= 0.0
    requires k < n && f(k) > 0.0
    ensures Sum(n, f) > 0.0
  {
    if k == n - 1 {
      SumMono(n - 1, (i: int) => 0.0, f);
      SumZero(n - 1, (i: int) => 0.0);
    }
  }

  lemma Sum2Ext(m: nat, n: nat, f: (int, int) -> real, g: (int, int) -> real)
    requires forall i, j | 0 <= i < m && 0 <= j < n :: f(i, j) == g(i, j)
    ensures Sum2(m, n, f) == Sum2(m, n, g)
  {
    forall i | 0 <= i < m
      ensures RowSum(n, f)(i) == RowSum(n, g)(i)
    {
      SumExt(n, j => f(i, j), j => g(i, j));
    }
    SumExt(m, RowSum(n, f), RowSum(n, g));
  }

  lemma Sum2Add(m: nat, n: nat, f: (int, int) -> real, g: (int, int) -> real, h: (int, int) -> real)
    requires forall i, j | 0 <= i < m && 0 <= j < n :: h(i, j) == f(i, j) + g(i, j)
    ensures Sum2(m, n, h) == Sum2(m, n, f) + Sum2(m, n, g)
  {
    var F, G := RowSum(n, f), RowSum(n, g);
    forall i | 0 <= i < m
      ensures RowSum(n, h)(i) == F(i) + G(i)
    {
      SumAdd(n, j => f(i, j), j => g(i, j));
      SumExt(n, j => h(i, j), Added(j => f(i, j), j => g(i, j)));
    }
    SumExt(m, RowSum(n, h), Added(F, G));
    SumAdd(m, F, G);
  }

  /** Finite sums may be exchanged. */
  lemma {:induction false} SumSwap(m: nat, n: nat, f: (int, int) -> real)
    ensures Sum(m, i => Sum(n, j => f(i, j))) == Sum(n, j => Sum(m, i => f(i, j)))
  {
    if m == 0 {
      SumZero(n, j => Sum(m, i => f(i, j)));
    } else {
      SumSwap(m - 1, n, f);
      var A := (j: int) => Sum(m - 1, i => f(i, j));
      var B := (j: int) => f(m - 1, j);
      SumAdd(n, A, B);
      SumExt(n, j => Sum(m, i => f(i, j)), Added(A, B));
      SumExt(n, j => f(m - 1, j), B);
    }
  }

  lemma Sum2Swap(m: nat, n: nat, f: (int, int) -> real, g: (int, int) -> real)
    requires forall i, j | 0 <= i < m && 0 <= j < n :: f(i, j) == g(j, i)
    ensures Sum2(m, n, f) == Sum2(n, m, g)
  {
    SumSwap(m, n, f);
    SumExt(m, RowSum(n, f), i => Sum(n, j => f(i, j)));
    forall j | 0 <= j < n
      ensures RowSum(m, g)(j) == (k => Sum(m, i => f(i, k)))(j)
    {
      SumExt(m, i => g(j, i), i => f(i, j));
    }
    SumExt(n, RowSum(m, g), j => Sum(m, i => f(i, j)));
  }
}
