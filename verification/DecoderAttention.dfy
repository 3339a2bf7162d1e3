/** The softmax over alignments of the translation examples, with and without a
    shift, in flat arrays. */
module DecoderAttention {
  import opened Common
  import opened FlatIndex
  import opened RealSums

  // Entries of a flat matrix

  /** The entry in row i and column j. */
  function At(s: seq<real>, i: int, j: int, n: int): real {
    if 0 <= Cell(i, j, n) < |s| then s[Cell(i, j, n)] else 0.0
  }

  /** Writing one entry changes that entry only. */
  lemma {:induction false} WriteEntry(s: seq<real>, m: nat, n: nat, i: nat, j: nat, x: real)
    requires |s| == m * n && i < m && j < n
    ensures 0 <= Cell(i, j, n) < |s| && At(s, i, j, n) == s[Cell(i, j, n)]
    ensures forall k, l | 0 <= k < m && 0 <= l < n :: At(s[Cell(i, j, n) := x], k, l, n) == if k == i && l == j then x else At(s, k, l, n)
  {
    hide Cell;
    CellInside(i, j, m, n);
    forall k, l | 0 <= k < m && 0 <= l < n
      ensures At(s[Cell(i, j, n) := x], k, l, n) == if k == i && l == j then x else At(s, k, l, n)
    {
      CellInside(k, l, m, n);
      if Cell(k, l, n) == Cell(i, j, n) {
        CellApart(k, l, i, j, n);
      }
    }
  }

  // Softmax

  /** Column j of the alignments. */
  function Column(s: seq<real>, n: int, j: int): int -> real {
    i => At(s, i, j, n)
  }

  function Exps(exp: real -> real, f: int -> real): int -> real {
    i => exp(f(i))
  }

  function Shifted(f: int -> real, c: real): int -> real {
    i => f(i) - c
  }

  /** The softmax of a column of length m. */
  ghost function Weight(exp: real -> real, f: int -> real, m: nat, i: int): real
    requires Sum(m, Exps(exp, f)) != 0.0
  {
    exp(f(i)) / Sum(m, Exps(exp, f))
  }

  lemma ExpIsPositive(exp: real -> real, x: real)
    requires IsExp(exp)
    ensures exp(x) > 0.0
  {
  }

  lemma ExpsArePositive(exp: real -> real, f: int -> real, m: nat)
    requires IsExp(exp) && m > 0
    ensures Sum(m, Exps(exp, f)) > 0.0
  {
    hide IsExp;
    forall i | 0 <= i < m
      ensures Exps(exp, f)(i) > 0.0
    {
      ExpIsPositive(exp, f(i));
    }
    SumPositive(m, Exps(exp, f), 0);
  }

  lemma SumOfShifted(exp: real -> real, f: int -> real, c: real, m: nat)
    requires IsExp(exp)
    ensures Sum(m, Exps(exp, f)) == exp(c) * Sum(m, Exps(exp, Shifted(f, c)))
  {
    hide IsExp;
    var g := Exps(exp, Shifted(f, c));
    forall i | 0 <= i < m
      ensures Exps(exp, f)(i) == Scaled(exp(c), g)(i)
    {
      ExpOfShifted(exp, f(i), c);
    }
    SumExt(m, Exps(exp, f), Scaled(exp(c), g));
    SumScale(m, exp(c), g);
  }

  lemma ExpOfShifted(exp: real -> real, x: real, c: real)
    requires IsExp(exp)
    ensures exp(x) == exp(c) * exp(x - c)
  {
    assert c + (x - c) == x;
    assert TurnsSumIntoProduct(exp, c, x - c);
  }

  lemma CancelFactor(a: real, x: real, s: real)
    requires a != 0.0 && s != 0.0
    ensures a * s != 0.0 && a * x / (a * s) == x / s
  {
  }

  /** Shifting a column by any amount leaves its softmax as it is. */
  lemma ShiftChangesNothing(exp: real -> real, f: int -> real, c: real, m: nat, i: int)
    requires IsExp(exp) && m > 0
    ensures Sum(m, Exps(exp, f)) > 0.0 && Sum(m, Exps(exp, Shifted(f, c))) > 0.0
    ensures Weight(exp, Shifted(f, c), m, i) == Weight(exp, f, m, i)
  {
    hide IsExp, Sum, Exps;
    ExpsArePositive(exp, f, m);
    ExpsArePositive(exp, Shifted(f, c), m);
    SumOfShifted(exp, f, c, m);
    ExpOfShifted(exp, f(i), c);
    ExpIsPositive(exp, c);
    CancelFactor(exp(c), exp(f(i) - c), Sum(m, Exps(exp, Shifted(f, c))));
  }

  function Divided(f: int -> real, s: real): int -> real
    requires s != 0.0
  {
    i => f(i) / s
  }

  lemma {:induction false} SumOfDivided(m: nat, f: int -> real, s: real)
    requires s != 0.0
    ensures Sum(m, Divided(f, s)) == Sum(m, f) / s
  {
    if m > 0 {
      SumOfDivided(m - 1, f, s);
      AddFractions(Sum(m - 1, f), f(m - 1), s);
    }
  }

  lemma AddFractions(a: real, b: real, s: real)
    requires s != 0.0
    ensures a / s + b / s == (a + b) / s
  {
  }

  lemma PositiveFraction(a: real, s: real)
    requires a > 0.0 && s > 0.0
    ensures a / s > 0.0 && s / s == 1.0
  {
  }

  /** The weights of a column are positive and sum to one. */
  lemma WeightsSumToOne(exp: real -> real, f: int -> real, m: nat, w: int -> real)
    requires IsExp(exp) && m > 0 && Sum(m, Exps(exp, f)) != 0.0
    requires forall i | 0 <= i < m :: w(i) == Weight(exp, f, m, i)
    ensures Sum(m, w) == 1.0 && forall i | 0 <= i < m :: w(i) > 0.0
  {
    hide IsExp, Sum;
    ExpsArePositive(exp, f, m);
    var s := Sum(m, Exps(exp, f));
    forall i | 0 <= i < m
      ensures w(i) == Divided(Exps(exp, f), s)(i) && w(i) > 0.0
    {
      ExpIsPositive(exp, f(i));
      PositiveFraction(exp(f(i)), s);
    }
    SumExt(m, w, Divided(Exps(exp, f), s));
    SumOfDivided(m, Exps(exp, f), s);
    PositiveFraction(s, s);
  }

  // The shift index

  predicate Falls(f: int -> real, i: int) {
    f(i) <= f(i - 1)
  }

  /** The last position at which the column rises, or 0. */
  ghost predicate IsLastAscent(f: int -> real, m: nat, t: nat) {
    && t < m && (t > 0 ==> f(t) > f(t - 1))
    && (forall i | t < i < m :: Falls(f, i))
  }

  /** No later entry is larger. */
  lemma {:induction false} LastAscentDominates(f: int -> real, m: nat, t: nat, i: nat)
    requires IsLastAscent(f, m, t) && t <= i < m
    ensures f(i) <= f(t)
  {
    if i > t {
      LastAscentDominates(f, m, t, i - 1);
      assert Falls(f, i);
    }
  }

  /** Some largest entry has no rise after it. */
  ghost predicate FallsAfterSomeMax(f: int -> real, m: nat) {
    exists k :: IsMax(f, m, k) && forall i | k < i < m :: Falls(f, i)
  }

  ghost predicate IsMax(f: int -> real, m: nat, k: int) {
    0 <= k < m && forall i | 0 <= i < m :: f(i) <= f(k)
  }

  /** The scan finds a largest entry exactly in columns that do not rise after
      some largest entry. */
  lemma {:induction false} LastAscentIsMaxIff(f: int -> real, m: nat, t: nat)
    requires IsLastAscent(f, m, t)
    ensures IsMax(f, m, t) <==> FallsAfterSomeMax(f, m)
  {
    if FallsAfterSomeMax(f, m) {
      var k :| IsMax(f, m, k) && forall i | k < i < m :: Falls(f, i);
      assert t > 0 ==> !Falls(f, t);
      LastAscentDominates(f, m, t, k);
    }
  }

  /** For some columns it is not. */
  lemma LastAscentIsNotAlwaysMax() returns (f: int -> real, m: nat, t: nat)
    ensures IsLastAscent(f, m, t) && f(0) > f(t)
  {
    f := i => if i == 0 then 5.0 else i as real;
    m, t := 3, 2;
  }

  // The code

  /** One column exponentiated in place, after subtracting c, and summed. */
  method ExponentiateColumn(a: array<real>, sums: array<real>, m: nat, n: nat, j: nat, c: real, exp: real -> real)
    requires a.Length == m * n && sums.Length == n && j < n && a != sums && sums[j] == 0.0
    modifies a, sums
    ensures forall i, l | 0 <= i < m && 0 <= l < n ::
              At(a[..], i, l, n) == if l == j then exp(old(At(a[..], i, l, n)) - c) else old(At(a[..], i, l, n))
    ensures forall l | 0 <= l < n && l != j :: sums[l] == old(sums[l])
    ensures sums[j] == Sum(m, Exps(exp, Shifted(Column(old(a[..]), n, j), c)))
  {
    hide Cell, At, Exps, Shifted, Column, Sum;
    ghost var f := Exps(exp, Shifted(Column(a[..], n, j), c));
    NoSum(f);
    for i := 0 to m
      invariant forall k, l | 0 <= k < m && 0 <= l < n ::
                  At(a[..], k, l, n) == if l == j && k < i then exp(old(At(a[..], k, l, n)) - c) else old(At(a[..], k, l, n))
      invariant forall l | 0 <= l < n && l != j :: sums[l] == old(sums[l])
      invariant sums[j] == Sum(i, f)
    {
      ghost var now := a[..];
      NextTerm(exp, old(a[..]), c, n, i, j);
      WriteEntry(now, m, n, i, j, exp(At(now, i, j, n) - c));
      var at := Index(i, j, m, n);
      a[at] := a[at] - c;
      a[at] := exp(a[at]);
      assert a[..] == now[at := exp(At(now, i, j, n) - c)];
      sums[j] := sums[j] + a[at];
    }
  }

  lemma NoSum(f: int -> real)
    ensures Sum(0, f) == 0.0
  {
  }

  lemma NextTerm(exp: real -> real, s: seq<real>, c: real, n: int, i: nat, j: int)
    ensures var f := Exps(exp, Shifted(Column(s, n, j), c));
            Sum(i + 1, f) == Sum(i, f) + exp(At(s, i, j, n) - c)
  {
    hide At;
  }

  method Index(i: nat, j: nat, m: nat, n: nat) returns (at: nat)
    requires i < m && j < n
    ensures at == Cell(i, j, n) < m * n
  {
    CellInside(i, j, m, n);
    at := i * n + j;
  }

  method Normalise(a: array<real>, sums: array<real>, m: nat, n: nat)
    requires a.Length == m * n && sums.Length == n && a != sums
    requires forall j | 0 <= j < n :: sums[j] != 0.0
    modifies a
    ensures forall i, j | 0 <= i < m && 0 <= j < n :: At(a[..], i, j, n) == old(At(a[..], i, j, n)) / sums[j]
  {
    hide Cell, At;
    for i := 0 to m
      invariant forall k, l | 0 <= k < m && 0 <= l < n ::
                  At(a[..], k, l, n) == if k < i then old(At(a[..], k, l, n)) / sums[l] else old(At(a[..], k, l, n))
    {
      for j := 0 to n
        invariant forall k, l | 0 <= k < m && 0 <= l < n ::
                    At(a[..], k, l, n) == if k < i || (k == i && l < j) then old(At(a[..], k, l, n)) / sums[l] else old(At(a[..], k, l, n))
      {
        ghost var now := a[..];
        WriteEntry(now, m, n, i, j, At(now, i, j, n) / sums[j]);
        var at := Index(i, j, m, n);
        a[at] := a[at] / sums[j];
        assert a[..] == now[at := At(now, i, j, n) / sums[j]];
      }
    }
  }

  method ClearSums(sums: array<real>)
    modifies sums
    ensures forall j | 0 <= j < sums.Length :: sums[j] == 0.0
  {
    for j := 0 to sums.Length
      invariant forall l | 0 <= l < j :: sums[l] == 0.0
    {
      sums[j] := 0.0;
    }
  }

  /** The scan compares neighbours only. */
  method FindShiftIndex(a: array<real>, m: nat, n: nat, j: nat) returns (t: nat)
    requires a.Length == m * n && j < n && m > 0
    ensures IsLastAscent(Column(a[..], n, j), m, t)
  {
    hide Cell, At;
    ghost var f := Column(a[..], n, j);
    t := 0;
    for i := 1 to m
      invariant IsLastAscent(f, i, t)
    {
      WriteEntry(a[..], m, n, i, j, 0.0);
      WriteEntry(a[..], m, n, i - 1, j, 0.0);
      var here := Index(i, j, m, n);
      var before := Index(i - 1, j, m, n);
      assert f(i) == a[here] && f(i - 1) == a[before];
      if a[here] > a[before] {
        t := i;
      } else {
        assert Falls(f, i);
      }
    }
  }

  /** Every column has become its softmax. */
  ghost predicate IsSoftmax(exp: real -> real, before: seq<real>, after: seq<real>, m: nat, n: nat) {
    forall i, j | 0 <= i < m && 0 <= j < n ::
      && Sum(m, Exps(exp, Column(before, n, j))) != 0.0
      && At(after, i, j, n) == Weight(exp, Column(before, n, j), m, i)
  }

  ghost predicate IsExponentiated(exp: real -> real, before: seq<real>, mid: seq<real>, sums: seq<real>, c: real, m: nat, n: int, j: int)
    requires 0 <= j < |sums|
  {
    && sums[j] == Sum(m, Exps(exp, Shifted(Column(before, n, j), c)))
    && forall i | 0 <= i < m :: At(mid, i, j, n) == exp(At(before, i, j, n) - c)
  }

  lemma {:induction false} ColumnIsSoftmax(exp: real -> real, before: seq<real>, mid: seq<real>, after: seq<real>, sums: seq<real>, c: real,
                                           m: nat, n: nat, j: nat, i: nat)
    requires IsExp(exp) && |sums| == n && j < n && i < m && sums[j] != 0.0
    requires IsExponentiated(exp, before, mid, sums, c, m, n, j) && At(after, i, j, n) == At(mid, i, j, n) / sums[j]
    ensures Sum(m, Exps(exp, Column(before, n, j))) != 0.0 && At(after, i, j, n) == Weight(exp, Column(before, n, j), m, i)
  {
    hide Cell, At, IsExp;
    ShiftChangesNothing(exp, Column(before, n, j), c, m, i);
  }

  lemma {:induction false} SameColumn(exp: real -> real, s: seq<real>, t: seq<real>, m: nat, n: nat, j: nat, c: real)
    requires j < n && forall i | 0 <= i < m :: At(s, i, j, n) == At(t, i, j, n)
    ensures Sum(m, Exps(exp, Shifted(Column(s, n, j), c))) == Sum(m, Exps(exp, Shifted(Column(t, n, j), c)))
  {
    hide Cell, At;
    SumExt(m, Exps(exp, Shifted(Column(s, n, j), c)), Exps(exp, Shifted(Column(t, n, j), c)));
  }

  /** The columns before j are done and the others as they were. */
  ghost predicate DoneTo(exp: real -> real, before: seq<real>, now: seq<real>, sums: seq<real>, cs: int -> real, m: nat, n: nat, j: nat) {
    && |sums| == n && j <= n
    && (forall l | 0 <= l < j :: IsExponentiated(exp, before, now, sums, cs(l), m, n, l))
    && (forall k, l | 0 <= k < m && j <= l < n :: At(now, k, l, n) == At(before, k, l, n))
    && (forall l | j <= l < n :: sums[l] == 0.0)
  }

  lemma {:induction false} OneColumnMore(exp: real -> real, before: seq<real>, now: seq<real>, next: seq<real>, sums: seq<real>, nextSums: seq<real>,
                                         cs: int -> real, m: nat, n: nat, j: nat)
    requires j < n && DoneTo(exp, before, now, sums, cs, m, n, j) && |nextSums| == n
    requires forall i, l | 0 <= i < m && 0 <= l < n :: At(next, i, l, n) == if l == j then exp(At(now, i, l, n) - cs(j)) else At(now, i, l, n)
    requires forall l | 0 <= l < n && l != j :: nextSums[l] == sums[l]
    requires nextSums[j] == Sum(m, Exps(exp, Shifted(Column(now, n, j), cs(j))))
    ensures DoneTo(exp, before, next, nextSums, cs, m, n, j + 1)
  {
    hide Cell, At, Exps, Shifted, Column;
    SameColumn(exp, now, before, m, n, j, cs(j));
    forall l | 0 <= l < j
      ensures IsExponentiated(exp, before, next, nextSums, cs(l), m, n, l)
    {
      assert IsExponentiated(exp, before, now, sums, cs(l), m, n, l);
    }
  }

  lemma {:induction false} SumsArePositive(exp: real -> real, before: seq<real>, now: seq<real>, sums: seq<real>, cs: int -> real, m: nat, n: nat)
    requires IsExp(exp) && m > 0 && DoneTo(exp, before, now, sums, cs, m, n, n)
    ensures forall j | 0 <= j < n :: sums[j] != 0.0
  {
    hide Cell, At, Exps, Shifted, Column, IsExp;
    forall j | 0 <= j < n
      ensures sums[j] != 0.0
    {
      assert IsExponentiated(exp, before, now, sums, cs(j), m, n, j);
      ExpsArePositive(exp, Shifted(Column(before, n, j), cs(j)), m);
    }
  }

  lemma {:induction false} AllColumns(exp: real -> real, before: seq<real>, mid: seq<real>, after: seq<real>, sums: seq<real>, cs: int -> real,
                                      m: nat, n: nat)
    requires IsExp(exp) && DoneTo(exp, before, mid, sums, cs, m, n, n) && forall j | 0 <= j < n :: sums[j] != 0.0
    requires forall i, j | 0 <= i < m && 0 <= j < n :: At(after, i, j, n) == At(mid, i, j, n) / sums[j]
    ensures IsSoftmax(exp, before, after, m, n)
  {
    hide Cell, At, IsExp, Exps, Column, Shifted, IsExponentiated, Weight;
    forall i, j | 0 <= i < m && 0 <= j < n
      ensures Sum(m, Exps(exp, Column(before, n, j))) != 0.0 && At(after, i, j, n) == Weight(exp, Column(before, n, j), m, i)
    {
      ColumnIsSoftmax(exp, before, mid, after, sums, cs(j), m, n, j, i);
    }
  }

  /** Without a shift, as for f32. */
  method SoftmaxPlain(a: array<real>, sums: array<real>, m: nat, n: nat, exp: real -> real)
    requires a.Length == m * n && sums.Length == n && a != sums && m > 0 && IsExp(exp)
    modifies a, sums
    ensures IsSoftmax(exp, old(a[..]), a[..], m, n)
  {
    hide *;
    ClearSums(sums);
    ghost var before, cs := a[..], (_: int) => 0.0;
    NoneDone(exp, before, sums[..], cs, m, n);
    for j := 0 to n
      invariant DoneTo(exp, before, a[..], sums[..], cs, m, n, j)
    {
      ghost var now, before0 := a[..], sums[..];
      NextSum(exp, before, now, before0, cs, m, n, j);
      ExponentiateColumn(a, sums, m, n, j, 0.0, exp);
      OneColumnMore(exp, before, now, a[..], before0, sums[..], cs, m, n, j);
    }
    SumsArePositive(exp, before, a[..], sums[..], cs, m, n);
    ghost var mid := a[..];
    Normalise(a, sums, m, n);
    AllColumns(exp, before, mid, a[..], sums[..], cs, m, n);
  }

  lemma NoneDone(exp: real -> real, before: seq<real>, sums: seq<real>, cs: int -> real, m: nat, n: nat)
    requires |sums| == n && forall l | 0 <= l < n :: sums[l] == 0.0
    ensures DoneTo(exp, before, before, sums, cs, m, n, 0)
  {
  }

  lemma NextSum(exp: real -> real, before: seq<real>, now: seq<real>, sums: seq<real>, cs: int -> real, m: nat, n: nat, j: nat)
    requires j < n && DoneTo(exp, before, now, sums, cs, m, n, j)
    ensures |sums| == n && sums[j] == 0.0
    ensures forall i | 0 <= i < m :: At(now, i, j, n) == At(before, i, j, n)
  {
    hide At, IsExponentiated;
  }

  /** With a shift by the entry the scan found, as for int8.  Whatever index that
      is, the result is the softmax. */
  method SoftmaxShifted(a: array<real>, sums: array<real>, m: nat, n: nat, exp: real -> real)
    requires a.Length == m * n && sums.Length == n && a != sums && m > 0 && IsExp(exp)
    modifies a, sums
    ensures IsSoftmax(exp, old(a[..]), a[..], m, n)
  {
    hide *;
    ClearSums(sums);
    var maxIdx := new nat[n](_ => 0);
    ghost var before := a[..];
    for j := 0 to n
      invariant forall l | 0 <= l < j :: maxIdx[l] < m
      invariant a[..] == before && forall l | 0 <= l < n :: sums[l] == 0.0
    {
      var t := FindShiftIndex(a, m, n, j);
      AscentInRange(Column(a[..], n, j), m, t);
      maxIdx[j] := t;
    }
    ghost var idx := maxIdx[..];
    ghost var cs := ShiftsOf(before, idx, n);
    NoneDone(exp, before, sums[..], cs, m, n);
    for j := 0 to n
      invariant DoneTo(exp, before, a[..], sums[..], cs, m, n, j)
      invariant maxIdx[..] == idx
    {
      ghost var now, before0 := a[..], sums[..];
      NextSum(exp, before, now, before0, cs, m, n, j);
      var at := Index(maxIdx[j], j, m, n);
      var shift := a[at];
      ShiftIs(before, now, idx, m, n, j, at);
      ExponentiateColumn(a, sums, m, n, j, shift, exp);
      OneColumnMore(exp, before, now, a[..], before0, sums[..], cs, m, n, j);
    }
    SumsArePositive(exp, before, a[..], sums[..], cs, m, n);
    ghost var mid := a[..];
    Normalise(a, sums, m, n);
    AllColumns(exp, before, mid, a[..], sums[..], cs, m, n);
  }

  /** The entry each column is shifted by. */
  function ShiftsOf(s: seq<real>, idx: seq<nat>, n: int): int -> real {
    j => if 0 <= j < |idx| then At(s, idx[j], j, n) else 0.0
  }

  lemma AscentInRange(f: int -> real, m: nat, t: nat)
    requires IsLastAscent(f, m, t)
    ensures t < m
  {
  }

  lemma ShiftIs(before: seq<real>, now: seq<real>, idx: seq<nat>, m: nat, n: nat, j: nat, at: nat)
    requires |now| == m * n && |idx| == n && j < n && idx[j] < m && at == Cell(idx[j], j, n)
    requires forall i | 0 <= i < m :: At(now, i, j, n) == At(before, i, j, n)
    ensures 0 <= at < |now| && now[at] == ShiftsOf(before, idx, n)(j)
  {
    hide Cell;
    CellInside(idx[j], j, m, n);
    assert At(now, idx[j], j, n) == At(before, idx[j], j, n);
  }

  /** Entry i * n + j becomes its share of the exponentials of entries j, n + j,
      2 * n + j and so on. */
  lemma {:induction false} SoftmaxInPlace(exp: real -> real, before: seq<real>, after: seq<real>, m: nat, n: nat, x: (int, int) -> real, i: nat, j: nat)
    requires IsExp(exp) && |before| == |after| == m * n && IsSoftmax(exp, before, after, m, n) && i < m && j < n
    requires forall k, l | 0 <= k < m && 0 <= l < n && 0 <= k * n + l < |before| :: before[k * n + l] == x(k, l)
    ensures 0 <= i * n + j < |after| && Sum(m, k => exp(x(k, j))) > 0.0
    ensures after[i * n + j] == exp(x(i, j)) / Sum(m, k => exp(x(k, j)))
  {
    hide IsExp, Sum;
    var f := k => exp(x(k, j));
    forall k | 0 <= k < m
      ensures Exps(exp, Column(before, n, j))(k) == f(k)
    {
      CellInside(k, j, m, n);
    }
    SumExt(m, Exps(exp, Column(before, n, j)), f);
    ExpsArePositive(exp, Column(before, n, j), m);
    CellInside(i, j, m, n);
    assert At(after, i, j, n) == Weight(exp, Column(before, n, j), m, i);
  }
}
