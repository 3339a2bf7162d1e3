/** What the forward graph computes, in plain sums over the entries of its inputs. */
module GqaForward {
  import opened Common
  import opened FlatIndex
  import opened RealSums
  import opened DualNumbers
  import opened AttentionAdjoint
  import opened Dataflow
  import opened TensorOps
  import opened GqaGraph
  import opened GqaEquations
  import opened GqaAdjoint
  import Softmax

  // A row of probabilities

  /** The exponentials of a row, with zero for masked entries. */
  function RowExps(m: ExpLog, row: int -> Num): int -> real {
    j => if row(j).Fin? then m.exp(row(j).v) else 0.0
  }

  lemma ExpOfDifference(m: ExpLog, v: real, c: real)
    requires Lawful(m)
    ensures m.exp(c) > 0.0 && m.exp(v) == m.exp(c) * m.exp(v - c)
  {
    assert TurnsSumIntoProduct(m.exp, c, v - c);
    assert c + (v - c) == v;
  }

  lemma {:induction false} WeightsAreScaledExps(m: ExpLog, n: nat, row: int -> Num, T: Vector) returns (x: Vector)
    requires Lawful(m) && Softmax.TangentOf(n, row, T) && Softmax.SomeFinite(n, row)
    ensures Largest(n, row).Fin?
    ensures forall j | 0 <= j < n :: Softmax.Weight(m, n, row)(j).Fin? && x(j) == Softmax.Weight(m, n, row)(j).v
    ensures forall j | 0 <= j < n :: RowExps(m, row)(j) == m.exp(Largest(n, row).v) * x(j)
    ensures Total(n, Softmax.Weight(m, n, row)).Fin? && Total(n, Softmax.Weight(m, n, row)).v == Sum(n, x)
  {
    hide Total, Lawful, Largest, Softmax.TangentOf, Softmax.SomeFinite, Sum;
    var w := Softmax.Weight(m, n, row);
    x := j => Val(w(j));
    LargestIsFinite(m, n, row, T);
    forall j | 0 <= j < n
      ensures w(j).Fin? && RowExps(m, row)(j) == m.exp(Largest(n, row).v) * x(j)
    {
      Softmax.WeightIs(m, n, row, T, j);
      EntryIsDefined(n, row, T, j);
      if row(j).Fin? {
        ExpOfDifference(m, row(j).v, Largest(n, row).v);
      }
    }
    TotalIs(n, w, x, j => Tan(w(j)));
  }

  lemma LargestIsFinite(m: ExpLog, n: nat, row: int -> Num, T: Vector)
    requires Softmax.TangentOf(n, row, T) && Softmax.SomeFinite(n, row)
    ensures Largest(n, row).Fin?
  {
    LargestIs(n, row);
  }

  lemma EntryIsDefined(n: nat, row: int -> Num, T: Vector, j: int)
    requires Softmax.TangentOf(n, row, T) && 0 <= j < n
    ensures !row(j).Undef?
  {
  }

  lemma ScaledQuotient(e: real, E: real, x: real, X: real, a: real)
    requires X > 0.0 && a > 0.0 && e == a * x && E == a * X
    ensures E > 0.0 && x / X == e / E
  {
    var q := x / X;
    assert q * X == x;
    assert q * E == a * (q * X) == e;
  }

  /** A probability is the exponential of its entry over the sum of all, and zero
      where the mask is. */
  lemma {:induction false} ProbabilityIs(m: ExpLog, n: nat, row: int -> Num, T: Vector, j: int)
    requires Lawful(m) && Softmax.TangentOf(n, row, T) && 0 <= j < n
    ensures Softmax.SomeFinite(n, row) ==>
              && Sum(n, RowExps(m, row)) > 0.0
              && HasValue(Softmax.Probability(m, n, row, j), RowExps(m, row)(j) / Sum(n, RowExps(m, row)))
    ensures !Softmax.SomeFinite(n, row) ==> HasValue(Softmax.Probability(m, n, row, j), 0.0)
  {
    hide Total, Lawful, Largest, Softmax.TangentOf, Softmax.Weight, Sum, RowExps;
    if Softmax.SomeFinite(n, row) {
      hide Softmax.SomeFinite;
      var x := WeightsAreScaledExps(m, n, row, T);
      Softmax.TotalIsPositive(m, n, row, T);
      var a := m.exp(Largest(n, row).v);
      ExpOfDifference(m, 0.0, Largest(n, row).v);
      SumExt(n, RowExps(m, row), Scaled(a, x));
      SumScale(n, a, x);
      ScaledQuotient(RowExps(m, row)(j), Sum(n, RowExps(m, row)), x(j), Sum(n, x), a);
    } else {
      AllMasked(n, row, T);
    }
  }

  lemma AllMasked(n: nat, row: int -> Num, T: Vector)
    requires Softmax.TangentOf(n, row, T) && !Softmax.SomeFinite(n, row)
    ensures Largest(n, row).NegInf?
  {
    LargestIs(n, row);
  }

  // Attention

  /** Entry (i, j) of the score of query head (b, g, r): the product of row i of
      the query with row j of the group's key. */
  function Score(z: Sizes, q: Tensor, k: Tensor, h: Head, i: int, j: int): real {
    Sum(z.d, l => Val(q.at(Ix(h.b, h.g, h.r, i, l))) * Val(k.at(Ix(h.b, h.g, 0, j, l))))
  }

  /** exp(score / scale + mask), or zero under the mask. */
  function Weights(m: ExpLog, z: Sizes, env: map<nat, Tensor>, h: Head, i: int): int -> real
    requires Inputs(z, env)
  {
    j => var w := env[MASK].at(Ix(h.b, h.g, h.r, i, j));
      if w.Fin? then m.exp(Score(z, env[QUERY], env[KEY], h, i, j) / env[SCALE].at(Ix(0, 0, 0, 0, 0)).v + w.v) else 0.0
  }

  ghost predicate IsFullyMasked(z: Sizes, mask: Tensor, h: Head, i: int) {
    forall j | 0 <= j < z.n :: mask.at(Ix(h.b, h.g, h.r, i, j)).NegInf?
  }

  lemma {:induction false} InputEntries(z: Sizes, env: map<nat, Tensor>, h: Head, i: int, l: int)
    requires Inputs(z, env) && IsHead(z, h) && 0 <= i < z.n && 0 <= l < z.d
    ensures Values(env[QUERY], h)(i, l) == Val(env[QUERY].at(Ix(h.b, h.g, h.r, i, l)))
    ensures Values(env[KEY], h)(i, l) == Val(env[KEY].at(Ix(h.b, h.g, 0, i, l)))
    ensures Values(env[VALUE], h)(i, l) == Val(env[VALUE].at(Ix(h.b, h.g, 0, i, l)))
  {
    hide AllFinite;
  }

  lemma {:induction false} ScoreIs(z: Sizes, env: map<nat, Tensor>, h: Head, i: int, j: int)
    requires Inputs(z, env) && IsHead(z, h) && 0 <= i < z.n && 0 <= j < z.n
    ensures MulNT(z.d, Values(env[QUERY], h), Values(env[KEY], h))(i, j) == Score(z, env[QUERY], env[KEY], h, i, j)
  {
    hide Values, Sum, AllFinite;
    var q, k := env[QUERY], env[KEY];
    var f := l => Val(q.at(Ix(h.b, h.g, h.r, i, l))) * Val(k.at(Ix(h.b, h.g, 0, j, l)));
    forall l | 0 <= l < z.d
      ensures Row(Values(q, h), i)(l) * Row(Values(k, h), j)(l) == f(l)
    {
      InputEntries(z, env, h, i, l);
      InputEntries(z, env, h, j, l);
    }
    DotIs(z.d, Row(Values(q, h), i), Row(Values(k, h), j), f);
  }

  /** The row of masked scores has those exponentials. */
  lemma {:induction false} RowWeights(m: ExpLog, z: Sizes, env: map<nat, Tensor>, h: Head, i: int, j: int)
    requires Inputs(z, env) && ScoreEquations(env) && IsHead(z, h) && 0 <= i < z.n && 0 <= j < z.n
    ensures RowExps(m, RowOf(env[5], At(h, i, 0)))(j) == Weights(m, z, env, h, i)(j)
    ensures RowOf(env[5], At(h, i, 0))(j).Fin? <==> env[MASK].at(Ix(h.b, h.g, h.r, i, j)).Fin?
  {
    hide Get, Values, Score, Elementwise, MatrixProduct, AllFinite, HeadScoreTangent;
    MaskedScore(z, env, h, i, j);
    ScoreIs(z, env, h, i, j);
    assert At(h, i, 0).(c := j) == At(h, i, j);
    assert At(h, i, j) == Ix(h.b, h.g, h.r, i, j) && ORIGIN == Ix(0, 0, 0, 0, 0);
  }

  function Weighted(m: ExpLog, z: Sizes, env: map<nat, Tensor>, h: Head, i: int, c: int): int -> real
    requires Inputs(z, env)
  {
    j => Weights(m, z, env, h, i)(j) * Val(env[VALUE].at(Ix(h.b, h.g, 0, j, c)))
  }

  lemma {:induction false} RowIsMasked(m: ExpLog, z: Sizes, env: map<nat, Tensor>, h: Head, i: int)
    requires Inputs(z, env) && ScoreEquations(env) && IsHead(z, h) && 0 <= i < z.n
    ensures Softmax.SomeFinite(z.n, RowOf(env[5], At(h, i, 0))) <==> !IsFullyMasked(z, env[MASK], h, i)
    ensures Sum(z.n, RowExps(m, RowOf(env[5], At(h, i, 0)))) == Sum(z.n, Weights(m, z, env, h, i))
  {
    hide Get, Values, Score, Elementwise, MatrixProduct, AllFinite, RowExps, Weights, Sum, RowOf;
    var row := RowOf(env[5], At(h, i, 0));
    forall j | 0 <= j < z.n
      ensures RowExps(m, row)(j) == Weights(m, z, env, h, i)(j)
      ensures row(j).Fin? <==> !env[MASK].at(Ix(h.b, h.g, h.r, i, j)).NegInf?
    {
      RowWeights(m, z, env, h, i, j);
      assert InRange(z.Score(), Ix(h.b, h.g, h.r, i, j));
    }
    SumExt(z.n, RowExps(m, row), Weights(m, z, env, h, i));
  }

  /** The probabilities of the forward graph are those of attention. */
  lemma {:induction false} ForwardProbability(m: ExpLog, z: Sizes, env: map<nat, Tensor>, h: Head, i: int, j: int)
    requires Lawful(m) && Inputs(z, env) && ForwardEquations(m, env) && IsHead(z, h) && Constants(z, env[SCALE], env[MASK])
    requires 0 <= i < z.n && 0 <= j < z.n
    ensures IsFullyMasked(z, env[MASK], h, i) ==> Values(env[7], h)(i, j) == 0.0
    ensures !IsFullyMasked(z, env[MASK], h, i) ==>
              && Sum(z.n, Weights(m, z, env, h, i)) > 0.0
              && Values(env[7], h)(i, j) == Weights(m, z, env, h, i)(j) / Sum(z.n, Weights(m, z, env, h, i))
  {
    hide Lawful, Elementwise, MatrixProduct, AllFinite, Get, Softmax.TangentOf, Softmax.SomeFinite, Softmax.Probability, HeadScoreTangent, Sum,
      RowExps, Weights, IsFullyMasked, Constants, ApplyUnary;
    ForwardShapes(m, z, env);
    RowHasTangent(z, env, h, i);
    var row := RowOf(env[5], At(h, i, 0));
    SoftmaxEntry(m, env[5], env[7], h, i, j);
    ProbabilityIs(m, z.n, row, Row(HeadScoreTangent(z, env[QUERY], env[KEY], env[SCALE].at(ORIGIN).v, h), i), j);
    RowIsMasked(m, z, env, h, i);
    RowWeights(m, z, env, h, i, j);
  }

  lemma {:induction false} WeightedMean(n: nat, p: Vector, v: Vector, w: Vector, t: Vector, W: real)
    requires W > 0.0 && (forall j | 0 <= j < n :: p(j) == w(j) / W && t(j) == w(j) * v(j))
    ensures Dot(n, p, v) == Sum(n, t) / W
  {
    hide Sum;
    Softmax.NormalisedDot(n, w, p, W, v);
    DotIs(n, w, v, t);
    Softmax.QuotientIs(Dot(n, p, v), W, Sum(n, t));
  }

  /** Attention: an entry of the output is the mean of the group's values weighted
      by exp(score / scale + mask), and zero where everything is masked. */
  lemma {:induction false} ForwardIsAttention(m: ExpLog, z: Sizes, env: map<nat, Tensor>, h: Head, i: int, c: int)
    requires Lawful(m) && Inputs(z, env) && ForwardEquations(m, env) && IsHead(z, h) && Constants(z, env[SCALE], env[MASK])
    requires 0 <= i < z.n && 0 <= c < z.d
    ensures env[OUTPUT].at(Ix(h.b, h.g, h.r, i, c)).Fin?
    ensures IsFullyMasked(z, env[MASK], h, i) ==> env[OUTPUT].at(Ix(h.b, h.g, h.r, i, c)).v == 0.0
    ensures !IsFullyMasked(z, env[MASK], h, i) ==>
              && Sum(z.n, Weights(m, z, env, h, i)) > 0.0
              && env[OUTPUT].at(Ix(h.b, h.g, h.r, i, c)).v == Sum(z.n, Weighted(m, z, env, h, i, c)) / Sum(z.n, Weights(m, z, env, h, i))
  {
    hide Lawful, Elementwise, MatrixProduct, AllFinite, Sum, Weights, IsFullyMasked, Constants, ApplyUnary, HeadOutputTangent, Values, Inputs;
    ForwardOutput(m, z, env, h, i, c);
    assert At(h, i, c) == Ix(h.b, h.g, h.r, i, c);
    var p, v := Row(Values(env[7], h), i), Row(Transpose(Values(env[VALUE], h)), c);
    forall j | 0 <= j < z.n
      ensures v(j) == Val(env[VALUE].at(Ix(h.b, h.g, 0, j, c)))
      ensures IsFullyMasked(z, env[MASK], h, i) ==> p(j) == 0.0
      ensures !IsFullyMasked(z, env[MASK], h, i) ==>
                && Sum(z.n, Weights(m, z, env, h, i)) > 0.0
                && p(j) == Weights(m, z, env, h, i)(j) / Sum(z.n, Weights(m, z, env, h, i))
    {
      InputEntries(z, env, h, j, c);
      ForwardProbability(m, z, env, h, i, j);
    }
    if IsFullyMasked(z, env[MASK], h, i) {
      ZeroDot(z.n, p, v);
    } else {
      ForwardProbability(m, z, env, h, i, i);
      WeightedMean(z.n, p, v, Weights(m, z, env, h, i), Weighted(m, z, env, h, i, c), Sum(z.n, Weights(m, z, env, h, i)));
    }
  }

  lemma ZeroDot(n: nat, p: Vector, v: Vector)
    requires forall j | 0 <= j < n :: p(j) == 0.0
    ensures Dot(n, p, v) == 0.0
  {
    hide Sum;
    var zero := (j: int) => 0.0;
    DotIs(n, p, v, zero);
    SumZero(n, zero);
  }

  /** The same of every run of the forward graph, in whatever order. */
  lemma {:induction false} ForwardRunIsAttention(m: ExpLog, z: Sizes, inputs: map<nat, Tensor>, order: seq<GraphOp>, h: Head, i: int, c: int)
    requires Lawful(m) && inputs.Keys == FORWARD_INPUTS && Schedule(order, ForwardOps(), FORWARD_INPUTS)
    requires Inputs(z, inputs) && Constants(z, inputs[SCALE], inputs[MASK]) && IsHead(z, h) && 0 <= i < z.n && 0 <= c < z.d
    ensures var fwd := Run(Apply(m), order, inputs);
            && (forall t | t in FORWARD_INPUTS :: t in fwd && fwd[t] == inputs[t])
            && OUTPUT in fwd && fwd[OUTPUT].at(Ix(h.b, h.g, h.r, i, c)).Fin?
            && (if IsFullyMasked(z, fwd[MASK], h, i) then fwd[OUTPUT].at(Ix(h.b, h.g, h.r, i, c)).v == 0.0
                else
                  && Sum(z.n, Weights(m, z, fwd, h, i)) > 0.0
                  && fwd[OUTPUT].at(Ix(h.b, h.g, h.r, i, c)).v
                     == Sum(z.n, Weighted(m, z, fwd, h, i, c)) / Sum(z.n, Weights(m, z, fwd, h, i)))
  {
    hide Lawful, ValidInputs, Constants, Solves, ForwardOps, Apply, Weights, Weighted, IsFullyMasked, Sum;
    ForwardGraphIsValid();
    ScheduleSolves(Apply(m), ForwardOps(), inputs, order);
    var fwd := Run(Apply(m), order, inputs);
    ForwardSolved(m, fwd);
    ForwardIsAttention(m, z, fwd, h, i, c);
  }

  // Heads

  /** The number of a query head: rep of them share key/value head g. */
  function HeadNumber(z: Sizes, g: int, r: int): int {
    g * z.rep + r
  }

  /** The tensors have exactly the query heads asked for if and only if the
      key/value heads divide them evenly; otherwise they have fewer. */
  lemma {:induction false} HeadsAreSharedIff(p: GqaDims)
    requires p.kvHeads > 0
    ensures SizesOf(p).mb == p.mb && SizesOf(p).kv == p.kvHeads && SizesOf(p).n == p.seqLen && SizesOf(p).d == p.headSize
    ensures SizesOf(p).rep * p.kvHeads <= p.qHeads
    ensures SizesOf(p).rep * p.kvHeads == p.qHeads <==> p.qHeads % p.kvHeads == 0
  {
    assert p.qHeads == p.qHeads / p.kvHeads * p.kvHeads + p.qHeads % p.kvHeads;
  }

  /** Then every query head is head r of one group g. */
  lemma {:induction false} EveryHeadHasAGroup(p: GqaDims, q: nat) returns (g: nat, r: nat)
    requires p.kvHeads > 0 && p.qHeads % p.kvHeads == 0 && q < p.qHeads
    ensures g < SizesOf(p).kv && r < SizesOf(p).rep && HeadNumber(SizesOf(p), g, r) == q
    ensures forall g', r' | 0 <= r' < SizesOf(p).rep && HeadNumber(SizesOf(p), g', r') == q :: g' == g && r' == r
  {
    hide SizesOf;
    HeadsAreSharedIff(p);
    var rep := SizesOf(p).rep;
    assert p.kvHeads * rep == rep * p.kvHeads;
    g, r := RowAndColumn(q, p.kvHeads, rep);
    forall g', r' | 0 <= r' < rep && HeadNumber(SizesOf(p), g', r') == q
      ensures g' == g && r' == r
    {
      CellApart(g', r', g, r, rep);
    }
  }
}
