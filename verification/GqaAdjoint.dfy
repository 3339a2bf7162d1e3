/** The backward graph of grouped-query attention is the adjoint of the
    derivative of the forward graph, for every size, input, mask, output
    gradient and direction. */
module GqaAdjoint {
  import opened RealSums
  import opened DualNumbers
  import opened AttentionAdjoint
  import opened Dataflow
  import opened TensorOps
  import opened GqaGraph
  import opened GqaEquations
  import Softmax

  /** The sizes of a problem as the caller gives them. */
  datatype GqaDims = GqaDims(mb: nat, seqLen: nat, qHeads: nat, kvHeads: nat, headSize: nat)

  /** The sizes of the tensors: rep query heads share one key/value head. */
  datatype Sizes = Sizes(mb: nat, kv: nat, rep: nat, n: nat, d: nat) {
    function Query(): Ix { Ix(mb, kv, rep, n, d) }
    function KeyValue(): Ix { Ix(mb, kv, 1, n, d) }
    function Score(): Ix { Ix(mb, kv, rep, n, n) }
    function Stats(): Ix { Ix(mb, kv, rep, n, 1) }
  }

  function SizesOf(p: GqaDims): Sizes
    requires p.kvHeads > 0
  {
    Sizes(p.mb, p.kvHeads, p.qHeads / p.kvHeads, p.seqLen, p.headSize)
  }

  const UNIT := Ix(1, 1, 1, 1, 1)
  const ORIGIN := Ix(0, 0, 0, 0, 0)

  ghost predicate AllFinite(t: Tensor) {
    forall x | InRange(t.dims, x) :: t.at(x).Fin?
  }

  /** Query, key and value are finite, the scale is a non-zero number, and the
      mask adds a number or -infinity to each score. */
  ghost predicate ValidInputs(z: Sizes, q: Tensor, k: Tensor, v: Tensor, scale: Tensor, mask: Tensor) {
    && q.dims == z.Query() && AllFinite(q)
    && k.dims == z.KeyValue() && AllFinite(k)
    && v.dims == z.KeyValue() && AllFinite(v)
    && scale.dims == UNIT && scale.at(ORIGIN).Fin? && scale.at(ORIGIN).v != 0.0
    && mask.dims == z.Score() && (forall x | InRange(z.Score(), x) :: !mask.at(x).Undef?)
  }

  ghost predicate Inputs(z: Sizes, env: map<nat, Tensor>) {
    && QUERY in env && KEY in env && VALUE in env && SCALE in env && MASK in env
    && ValidInputs(z, env[QUERY], env[KEY], env[VALUE], env[SCALE], env[MASK])
  }

  /** The scale and the mask are constants: they have no tangent. */
  ghost predicate Constants(z: Sizes, scale: Tensor, mask: Tensor) {
    && Tan(scale.at(ORIGIN)) == 0.0
    && forall x | InRange(z.Score(), x) :: Tan(mask.at(x)) == 0.0
  }

  predicate IsHead(z: Sizes, h: Head) {
    0 <= h.b < z.mb && 0 <= h.g < z.kv && 0 <= h.r < z.rep
  }

  /** The values and the tangents of head h of t. */
  function Values(t: Tensor, h: Head): Matrix {
    (i, c) => Val(Get(t, At(h, i, c)))
  }

  function Tangents(t: Tensor, h: Head): Matrix {
    (i, c) => Tan(Get(t, At(h, i, c)))
  }

  // Entries of the tensors a graph computes

  lemma ElementwiseEntry(f: (Num, Num) -> Num, a: Tensor, b: Tensor, t: Tensor, x: Ix)
    requires t == Elementwise(f, a, b) && InRange(t.dims, x)
    ensures Get(t, x) == f(Get(a, x), Get(b, x))
  {
    GetInRange(t, x);
  }

  lemma ExpEntry(m: ExpLog, a: Tensor, t: Tensor, x: Ix)
    requires t == ApplyUnary(m, Exp, a, 0) && InRange(a.dims, x)
    ensures t.dims == a.dims && Get(t, x) == Exponential(m, Get(a, x))
  {
    GetInRange(a, x);
    GetInRange(t, x);
  }

  lemma SoftmaxEntry(m: ExpLog, a: Tensor, t: Tensor, h: Head, i: int, j: int)
    requires t == ApplyUnary(m, SoftMax, a, 0) && InRange(a.dims, At(h, i, j))
    ensures Get(t, At(h, i, j)) == Softmax.Probability(m, Size(a.dims.c), RowOf(a, At(h, i, 0)), j)
  {
    GetInRange(t, At(h, i, j));
    assert At(h, i, j).(c := 0) == At(h, i, 0);
  }

  lemma ScalarEntry(t: Tensor, x: Ix)
    requires t.dims == UNIT
    ensures Get(t, x) == t.at(ORIGIN)
  {
  }

  /** X Y^T, entry by entry. */
  lemma ScoreEntry(x: Tensor, y: Tensor, h: Head, n: nat, d: nat, i: int, j: int,
                   X: Matrix, X': Matrix, Y: Matrix, Y': Matrix)
    requires x.dims.c == d && y.dims.c == d
    requires IsDual(x, h, n, d, X, X') && IsDual(y, h, n, d, Y, Y')
    requires 0 <= i < n && 0 <= j < n
    ensures MatrixProduct(x, Transposed(y)).at(At(h, i, j))
            == Fin(MulNT(d, X, Y)(i, j), MulNT(d, X, Y')(i, j) + MulNT(d, X', Y)(i, j))
  {
    hide Dot, MatrixProduct;
    var yt := Transposed(y);
    forall k | 0 <= k < d
      ensures Get(x, At(h, i, j).(c := k)) == Fin(Row(X, i)(k), Row(X', i)(k))
    {
      assert At(h, i, j).(c := k) == At(h, i, k);
    }
    forall k | 0 <= k < d
      ensures Get(yt, At(h, i, j).(i := k)) == Fin(Row(Y, j)(k), Row(Y', j)(k))
    {
      assert Get(yt, At(h, k, j)) == Get(y, At(h, j, k));
    }
    ProductEntry(x, yt, At(h, i, j), Row(X, i), Row(X', i), Row(Y, j), Row(Y', j));
  }

  lemma InputIsDual(t: Tensor, h: Head, n: nat, d: nat)
    requires AllFinite(t) && t.dims.i == n && t.dims.c == d
    requires 0 <= h.b < t.dims.b && 0 <= h.g < t.dims.g && 0 <= h.r && (h.r < t.dims.r || t.dims.r == 1)
    ensures IsDual(t, h, n, d, Values(t, h), Tangents(t, h))
  {
    forall i, c | 0 <= i < n && 0 <= c < d
      ensures Get(t, At(h, i, c)).Fin?
    {
      var x := At(h.(r := if t.dims.r == 1 then 0 else h.r), i, c);
      assert InRange(t.dims, x);
      assert Get(t, At(h, i, c)) == t.at(x);
    }
  }

  // The masked score

  /** A masked score, from its parts: the product s, the scale a and the mask w. */
  lemma MaskedNumber(s: Num, a: Num, w: Num)
    requires s.Fin? && a.Fin? && a.v != 0.0 && !w.Undef?
    ensures var e := DualNumbers.Plus(Quotient(s, a), w);
            && !e.Undef? && (e.Fin? <==> w.Fin?)
            && (e.Fin? ==> e.v == s.v / a.v + w.v)
            && (e.Fin? && a.d == 0.0 && w.d == 0.0 ==> e.d == s.d / a.v)
  {
  }

  /** Scaling and masking one entry of a score tensor t1. */
  lemma MaskedEntry(z: Sizes, t1: Tensor, scale: Tensor, t3: Tensor, mask: Tensor, t5: Tensor, x: Ix, S: real, S': real)
    requires t1.dims == z.Score() && mask.dims == z.Score() && scale.dims == UNIT
    requires t3 == Elementwise(Quotient, t1, scale) && t5 == Elementwise(DualNumbers.Plus, t3, mask)
    requires InRange(z.Score(), x) && t1.at(x) == Fin(S, S')
    requires scale.at(ORIGIN).Fin? && scale.at(ORIGIN).v != 0.0 && !mask.at(x).Undef?
    ensures t5.dims == z.Score()
    ensures var e, w, a := Get(t5, x), mask.at(x), scale.at(ORIGIN);
            && !e.Undef? && (e.Fin? <==> w.Fin?)
            && (e.Fin? ==> e.v == S / a.v + w.v)
            && (e.Fin? && a.d == 0.0 && Tan(w) == 0.0 ==> e.d == S' / a.v)
  {
    ElementwiseEntry(DualNumbers.Plus, t3, mask, t5, x);
    ElementwiseEntry(Quotient, t1, scale, t3, x);
    ScalarEntry(scale, x);
    GetInRange(t1, x);
    GetInRange(mask, x);
    MaskedNumber(t1.at(x), scale.at(ORIGIN), mask.at(x));
  }

  /** The unscaled score of a head. */
  lemma UnscaledScore(z: Sizes, q: Tensor, k: Tensor, h: Head, i: int, j: int)
    requires q.dims == z.Query() && k.dims == z.KeyValue() && AllFinite(q) && AllFinite(k)
    requires IsHead(z, h) && 0 <= i < z.n && 0 <= j < z.n
    ensures var t1 := MatrixProduct(q, Transposed(k));
            && t1.dims == z.Score()
            && t1.at(At(h, i, j)) == Fin(MulNT(z.d, Values(q, h), Values(k, h))(i, j),
                                         MulNT(z.d, Values(q, h), Tangents(k, h))(i, j)
                                         + MulNT(z.d, Tangents(q, h), Values(k, h))(i, j))
  {
    InputIsDual(q, h, z.n, z.d);
    InputIsDual(k, h, z.n, z.d);
    ScoreEntry(q, k, h, z.n, z.d, i, j, Values(q, h), Tangents(q, h), Values(k, h), Tangents(k, h));
  }

  /** The value and the tangent that an unmasked score has. */
  function ScoreValue(z: Sizes, q: Tensor, k: Tensor, a: real, h: Head): Matrix
    requires a != 0.0
  {
    Over(MulNT(z.d, Values(q, h), Values(k, h)), a)
  }

  function HeadScoreTangent(z: Sizes, q: Tensor, k: Tensor, a: real, h: Head): Matrix
    requires a != 0.0
  {
    ScoreTangent(z.d, a, Values(q, h), Tangents(q, h), Values(k, h), Tangents(k, h))
  }

  /** The masked scores of a head are -infinity where the mask is, and otherwise
      have value Q K^T / a + mask and the derivative of Q K^T / a. */
  lemma MaskedScore(z: Sizes, env: map<nat, Tensor>, h: Head, i: int, j: int)
    requires Inputs(z, env) && ScoreEquations(env) && IsHead(z, h) && 0 <= i < z.n && 0 <= j < z.n
    ensures env[5].dims == z.Score()
    ensures var e, w, a := Get(env[5], At(h, i, j)), env[MASK].at(At(h, i, j)), env[SCALE].at(ORIGIN).v;
            && !e.Undef? && (e.Fin? <==> w.Fin?)
            && (e.Fin? ==> e.v == ScoreValue(z, env[QUERY], env[KEY], a, h)(i, j) + w.v)
            && (e.Fin? && Constants(z, env[SCALE], env[MASK]) ==>
                  e.d == HeadScoreTangent(z, env[QUERY], env[KEY], a, h)(i, j))
  {
    hide Elementwise, MatrixProduct, Values, Tangents, Get, AllFinite;
    var q, k, x := env[QUERY], env[KEY], At(h, i, j);
    UnscaledScore(z, q, k, h, i, j);
    assert InRange(z.Score(), x);
    MaskedEntry(z, env[1], env[SCALE], env[3], env[MASK], env[5], x, MulNT(z.d, Values(q, h), Values(k, h))(i, j),
                MulNT(z.d, Values(q, h), Tangents(k, h))(i, j) + MulNT(z.d, Tangents(q, h), Values(k, h))(i, j));
  }

  // One head of the forward graph

  lemma RowHasTangent(z: Sizes, env: map<nat, Tensor>, h: Head, i: int)
    requires Inputs(z, env) && ScoreEquations(env) && IsHead(z, h) && 0 <= i < z.n
    requires Constants(z, env[SCALE], env[MASK])
    ensures env[5].dims == z.Score()
    ensures Softmax.TangentOf(z.n, RowOf(env[5], At(h, i, 0)),
                              Row(HeadScoreTangent(z, env[QUERY], env[KEY], env[SCALE].at(ORIGIN).v, h), i))
  {
    var row := RowOf(env[5], At(h, i, 0));
    var S' := HeadScoreTangent(z, env[QUERY], env[KEY], env[SCALE].at(ORIGIN).v, h);
    MaskedScore(z, env, h, i, i);
    forall j | 0 <= j < z.n
      ensures !row(j).Undef? && (row(j).Fin? ==> row(j).d == S'(i, j))
    {
      assert At(h, i, 0).(c := j) == At(h, i, j);
      MaskedScore(z, env, h, i, j);
    }
  }

  /** Row i of the probabilities of a head, with their tangents, from a row of
      masked scores that has tangent S'. */
  lemma ProbabilityRow(m: ExpLog, z: Sizes, t5: Tensor, t7: Tensor, h: Head, i: int, S': Matrix)
    requires Lawful(m) && IsHead(z, h) && 0 <= i < z.n
    requires t5.dims == z.Score() && t7 == ApplyUnary(m, SoftMax, t5, 0)
    requires Softmax.TangentOf(z.n, RowOf(t5, At(h, i, 0)), Row(S', i))
    ensures var P := Values(t7, h);
            && (forall j | 0 <= j < z.n :: Get(t7, At(h, i, j)) == Fin(P(i, j), SoftmaxTangent(z.n, P, S')(i, j)))
            && (forall j | 0 <= j < z.n :: P(i, j) >= 0.0)
            && Sum(z.n, Row(P, i)) == (if Softmax.SomeFinite(z.n, RowOf(t5, At(h, i, 0))) then 1.0 else 0.0)
  {
    hide Softmax.Probability, Softmax.Stats, Dot, Softmax.TangentOf, Softmax.SomeFinite, ApplyUnary, Get;
    var P, row := Values(t7, h), RowOf(t5, At(h, i, 0));
    var p := Softmax.SoftmaxRow(m, z.n, row, Row(S', i));
    forall j | 0 <= j < z.n
      ensures Get(t7, At(h, i, j)) == Softmax.Probability(m, z.n, row, j)
    {
      SoftmaxEntry(m, t5, t7, h, i, j);
    }
    DotLeft(z.n, p, Row(P, i), Row(S', i));
    SumExt(z.n, p, Row(P, i));
    assert RowInner(z.n, P, S')(i) == Dot(z.n, p, Row(S', i));
  }

  /** X Y, entry by entry. */
  lemma OutputEntry(x: Tensor, y: Tensor, h: Head, n: nat, d: nat, i: int, c: int,
                    X: Matrix, X': Matrix, Y: Matrix, Y': Matrix)
    requires x.dims.c == n
    requires IsDual(x, h, n, n, X, X') && IsDual(y, h, n, d, Y, Y')
    requires 0 <= i < n && 0 <= c < d
    ensures MatrixProduct(x, y).at(At(h, i, c))
            == Fin(Mul(n, X, Y)(i, c), Mul(n, X, Y')(i, c) + Mul(n, X', Y)(i, c))
  {
    hide Dot, MatrixProduct, Get;
    forall k | 0 <= k < n
      ensures Get(x, At(h, i, c).(c := k)) == Fin(Row(X, i)(k), Row(X', i)(k))
      ensures Get(y, At(h, i, c).(i := k)) == Fin(Row(Transpose(Y), c)(k), Row(Transpose(Y'), c)(k))
    {
      assert At(h, i, c).(c := k) == At(h, i, k) && At(h, i, c).(i := k) == At(h, k, c);
    }
    ProductEntry(x, y, At(h, i, c), Row(X, i), Row(X', i), Row(Transpose(Y), c), Row(Transpose(Y'), c));
  }

  /** The derivative of the output of a head in the direction of the tangents of
      query, key and value. */
  function HeadOutputTangent(z: Sizes, env: map<nat, Tensor>, h: Head): Matrix
    requires Inputs(z, env) && 7 in env
  {
    var P := Values(env[7], h);
    var S' := HeadScoreTangent(z, env[QUERY], env[KEY], env[SCALE].at(ORIGIN).v, h);
    OutputTangent(z.n, P, SoftmaxTangent(z.n, P, S'), Values(env[VALUE], h), Tangents(env[VALUE], h))
  }

  lemma ForwardProbs(m: ExpLog, z: Sizes, env: map<nat, Tensor>, h: Head)
    requires Lawful(m) && Inputs(z, env) && ForwardEquations(m, env) && IsHead(z, h)
    requires Constants(z, env[SCALE], env[MASK])
    ensures var P := Values(env[7], h);
            var S' := HeadScoreTangent(z, env[QUERY], env[KEY], env[SCALE].at(ORIGIN).v, h);
            IsDual(env[7], h, z.n, z.n, P, SoftmaxTangent(z.n, P, S'))
  {
    hide Softmax.TangentOf, HeadScoreTangent, ApplyUnary, Get, Softmax.SomeFinite, Values, SoftmaxTangent, Elementwise, MatrixProduct, AllFinite, Row;
    var P := Values(env[7], h);
    var S' := HeadScoreTangent(z, env[QUERY], env[KEY], env[SCALE].at(ORIGIN).v, h);
    forall i, j | 0 <= i < z.n && 0 <= j < z.n
      ensures Get(env[7], At(h, i, j)) == Fin(P(i, j), SoftmaxTangent(z.n, P, S')(i, j))
    {
      RowHasTangent(z, env, h, i);
      ProbabilityRow(m, z, env[5], env[7], h, i, S');
    }
  }

  /** The shapes inferred in the forward graph are the declared ones. */
  lemma ForwardShapes(m: ExpLog, z: Sizes, env: map<nat, Tensor>)
    requires Inputs(z, env) && ForwardEquations(m, env)
    ensures env[1].dims == z.Score() && env[3].dims == z.Score() && env[5].dims == z.Score()
    ensures env[7].dims == z.Score() && env[STATS].dims == z.Stats() && env[OUTPUT].dims == z.Query()
  {
    hide AllFinite;
  }

  /** A head of the output: P V and its derivative. */
  lemma ForwardOutput(m: ExpLog, z: Sizes, env: map<nat, Tensor>, h: Head, i: int, c: int)
    requires Lawful(m) && Inputs(z, env) && ForwardEquations(m, env) && IsHead(z, h)
    requires Constants(z, env[SCALE], env[MASK])
    requires 0 <= i < z.n && 0 <= c < z.d
    ensures env[OUTPUT].at(At(h, i, c))
            == Fin(Mul(z.n, Values(env[7], h), Values(env[VALUE], h))(i, c), HeadOutputTangent(z, env, h)(i, c))
  {
    hide IsDual, AllFinite, Elementwise, Get, Values, Tangents, SoftmaxTangent, HeadScoreTangent, Mul;
    hide MatrixProduct, ApplyUnary, Constants, Lawful;
    ForwardShapes(m, z, env);
    var P, V := Values(env[7], h), Values(env[VALUE], h);
    var P' := SoftmaxTangent(z.n, P, HeadScoreTangent(z, env[QUERY], env[KEY], env[SCALE].at(ORIGIN).v, h));
    ForwardProbs(m, z, env, h);
    InputIsDual(env[VALUE], h, z.n, z.d);
    OutputEntry(env[7], env[VALUE], h, z.n, z.d, i, c, P, P', V, Tangents(env[VALUE], h));
  }

  // One head of the backward graph

  /** Two tensors with the same shape and values; tangents may differ. */
  ghost predicate SameValues(t: Tensor, u: Tensor) {
    t.dims == u.dims && forall x | InRange(t.dims, x) :: SameValue(t.at(x), u.at(x))
  }

  /** The backward graph reads the inputs, the output and the stats of the
      forward graph, and a finite output gradient. */
  ghost predicate ReadsForward(z: Sizes, fwd: map<nat, Tensor>, bwd: map<nat, Tensor>) {
    && (forall t | t in {QUERY, KEY, VALUE, SCALE, MASK, STATS, OUTPUT} ::
          t in fwd && t in bwd && SameValues(bwd[t], fwd[t]))
    && DOUTPUT in bwd && bwd[DOUTPUT].dims == z.Query() && AllFinite(bwd[DOUTPUT])
  }

  lemma BackwardInputs(z: Sizes, fwd: map<nat, Tensor>, bwd: map<nat, Tensor>)
    requires Inputs(z, fwd) && ReadsForward(z, fwd, bwd)
    ensures Inputs(z, bwd)
    ensures bwd[SCALE].at(ORIGIN).v == fwd[SCALE].at(ORIGIN).v
  {
    assert InRange(UNIT, ORIGIN);
  }

  /** Equal values, head by head. */
  lemma SameHead(t: Tensor, u: Tensor, h: Head, n: nat, d: nat)
    requires SameValues(t, u) && AllFinite(u) && u.dims.i == n && u.dims.c == d
    requires 0 <= h.b < u.dims.b && 0 <= h.g < u.dims.g && 0 <= h.r && (h.r < u.dims.r || u.dims.r == 1)
    ensures IsValue(t, h, n, d, Values(u, h))
    ensures forall i, c | 0 <= i < n && 0 <= c < d :: Values(t, h)(i, c) == Values(u, h)(i, c)
  {
    forall i, c | 0 <= i < n && 0 <= c < d
      ensures HasValue(Get(t, At(h, i, c)), Values(u, h)(i, c))
    {
      var x := At(h.(r := if u.dims.r == 1 then 0 else h.r), i, c);
      assert InRange(u.dims, x);
      assert Get(t, At(h, i, c)) == t.at(x) && Get(u, At(h, i, c)) == u.at(x);
    }
  }

  /** The masked scores of the two graphs have the same values. */
  lemma SameMaskedScore(m: ExpLog, z: Sizes, fwd: map<nat, Tensor>, bwd: map<nat, Tensor>, h: Head, i: int, j: int)
    requires Inputs(z, fwd) && ScoreEquations(fwd) && ScoreEquations(bwd) && ReadsForward(z, fwd, bwd)
    requires IsHead(z, h) && 0 <= i < z.n && 0 <= j < z.n
    ensures SameValue(Get(bwd[5], At(h, i, j)), Get(fwd[5], At(h, i, j)))
  {
    hide Get, Elementwise, MatrixProduct, AllFinite, Values, Tangents, HeadScoreTangent;
    BackwardInputs(z, fwd, bwd);
    MaskedScore(z, fwd, h, i, j);
    MaskedScore(z, bwd, h, i, j);
    SameHead(bwd[QUERY], fwd[QUERY], h, z.n, z.d);
    SameHead(bwd[KEY], fwd[KEY], h, z.n, z.d);
    DotExt(z.d, Row(Values(bwd[QUERY], h), i), Row(Values(bwd[KEY], h), j),
           Row(Values(fwd[QUERY], h), i), Row(Values(fwd[KEY], h), j));
    assert InRange(z.Score(), At(h, i, j));
  }

  /** The shapes inferred in the backward graph are the declared ones. */
  lemma BackwardShapes(m: ExpLog, z: Sizes, env: map<nat, Tensor>, t: Backward)
    requires Inputs(z, env) && BackwardEquations(m, env, t)
    requires env[STATS].dims == z.Stats() && env[OUTPUT].dims == z.Query() && env[DOUTPUT].dims == z.Query()
    ensures env[5].dims == z.Score() && t.sub.dims == z.Score() && t.probs.dims == z.Score()
    ensures t.dprobs.dims == z.Score() && t.oDo.dims == z.Query() && t.correction.dims == z.Stats()
    ensures t.dpCorrected.dims == z.Score() && t.dmasked.dims == z.Score() && t.dscaled.dims == z.Score()
    ensures t.dvalue.dims == z.Query() && t.dquery.dims == z.Query() && t.dkey.dims == z.Query()
  {
    hide AllFinite, Get, Terms, Total, GroupOf, RowOf, Exponential, Quotient, Minus, Times, DualNumbers.Plus;
    assert env[5].dims == z.Score() && t.sub.dims == z.Score();
    assert t.dpCorrected.dims == z.Score();
  }

  /** The stats of the row of one score, as the backward graph reads them. */
  lemma StatsOfRow(m: ExpLog, z: Sizes, fwd: map<nat, Tensor>, bwd: map<nat, Tensor>, h: Head, i: int, j: int)
    requires Inputs(z, fwd) && ForwardEquations(m, fwd) && ReadsForward(z, fwd, bwd)
    requires IsHead(z, h) && 0 <= i < z.n
    ensures SameValue(Get(bwd[STATS], At(h, i, j)), Softmax.Stats(m, z.n, RowOf(fwd[5], At(h, i, 0))))
  {
    hide AllFinite, Elementwise, MatrixProduct, Softmax.Stats, Softmax.Probability;
    ForwardShapes(m, z, fwd);
    var x := At(h, i, 0);
    assert InRange(z.Stats(), x);
    assert Get(bwd[STATS], At(h, i, j)) == bwd[STATS].at(x);
    assert x.(c := 0) == x;
  }

  /** exp(masked_score - stats) recovers the probabilities of the forward graph. */
  lemma BackwardProbs(m: ExpLog, z: Sizes, fwd: map<nat, Tensor>, bwd: map<nat, Tensor>, t: Backward, h: Head)
    requires Lawful(m) && Inputs(z, fwd) && ForwardEquations(m, fwd) && Constants(z, fwd[SCALE], fwd[MASK])
    requires ReadsForward(z, fwd, bwd) && BackwardEquations(m, bwd, t) && IsHead(z, h)
    ensures IsValue(t.probs, h, z.n, z.n, Values(fwd[7], h))
  {
    hide AllFinite, MatrixProduct, HeadScoreTangent, Lawful, Softmax.TangentOf;
    ForwardShapes(m, z, fwd);
    BackwardInputs(z, fwd, bwd);
    BackwardShapes(m, z, bwd, t);
    var S' := HeadScoreTangent(z, fwd[QUERY], fwd[KEY], fwd[SCALE].at(ORIGIN).v, h);
    forall i, j | 0 <= i < z.n && 0 <= j < z.n
      ensures HasValue(Get(t.probs, At(h, i, j)), Values(fwd[7], h)(i, j))
    {
      BackwardProb(m, z, fwd, bwd, t, h, i, j, S');
    }
  }

  lemma BackwardProb(m: ExpLog, z: Sizes, fwd: map<nat, Tensor>, bwd: map<nat, Tensor>, t: Backward,
                     h: Head, i: int, j: int, S': Matrix)
    requires Lawful(m) && Inputs(z, fwd) && ForwardEquations(m, fwd) && Constants(z, fwd[SCALE], fwd[MASK])
    requires ReadsForward(z, fwd, bwd) && BackwardEquations(m, bwd, t) && IsHead(z, h)
    requires t.sub.dims == z.Score() && t.probs.dims == z.Score() && fwd[5].dims == z.Score() && fwd[7].dims == z.Score()
    requires S' == HeadScoreTangent(z, fwd[QUERY], fwd[KEY], fwd[SCALE].at(ORIGIN).v, h)
    requires 0 <= i < z.n && 0 <= j < z.n
    ensures HasValue(Get(t.probs, At(h, i, j)), Values(fwd[7], h)(i, j))
  {
    hide AllFinite, MatrixProduct, Elementwise, HeadScoreTangent, Lawful, Softmax.TangentOf, Constants;
    hide Softmax.Probability, Softmax.Stats, Minus, Exponential, ApplyUnary, Get, ReadsForward, Inputs, SoftmaxTangent;
    hide Softmax.SomeFinite;
    var x, row := At(h, i, j), RowOf(fwd[5], At(h, i, 0));
    RowHasTangent(z, fwd, h, i);
    SameMaskedScore(m, z, fwd, bwd, h, i, j);
    StatsOfRow(m, z, fwd, bwd, h, i, j);
    assert At(h, i, 0).(c := j) == x;
    Softmax.Recovered(m, z.n, row, Row(S', i), j, Get(bwd[5], x), Get(bwd[STATS], x));
    ElementwiseEntry(Minus, bwd[5], bwd[STATS], t.sub, x);
    ExpEntry(m, t.sub, t.probs, x);
    SoftmaxEntry(m, fwd[5], fwd[7], h, i, j);
    ProbabilityRow(m, z, fwd[5], fwd[7], h, i, S');
  }

  /** The three products, head by head. */
  lemma ProductNT(x: Tensor, y: Tensor, t: Tensor, h: Head, n: nat, d: nat, X: Matrix, Y: Matrix)
    requires t == MatrixProduct(x, Transposed(y)) && x.dims.c == d
    requires forall i, j | 0 <= i < n && 0 <= j < n :: InRange(t.dims, At(h, i, j))
    requires IsValue(x, h, n, d, X) && IsValue(y, h, n, d, Y)
    ensures IsValue(t, h, n, n, MulNT(d, X, Y))
  {
    hide Dot, MatrixProduct, HasValue;
    forall i, j | 0 <= i < n && 0 <= j < n
      ensures HasValue(Get(t, At(h, i, j)), MulNT(d, X, Y)(i, j))
    {
      forall k | 0 <= k < d
        ensures HasValue(Get(x, At(h, i, j).(c := k)), Row(X, i)(k))
        ensures HasValue(Get(Transposed(y), At(h, i, j).(i := k)), Row(Y, j)(k))
      {
        assert At(h, i, j).(c := k) == At(h, i, k) && At(h, i, j).(i := k) == At(h, k, j);
        assert Get(Transposed(y), At(h, k, j)) == Get(y, At(h, j, k));
      }
      ProductValue(x, Transposed(y), At(h, i, j), Row(X, i), Row(Y, j));
      GetInRange(t, At(h, i, j));
    }
  }

  lemma ProductNN(x: Tensor, y: Tensor, t: Tensor, h: Head, n: nat, d: nat, X: Matrix, Y: Matrix)
    requires t == MatrixProduct(x, y) && x.dims.c == n
    requires forall i, c | 0 <= i < n && 0 <= c < d :: InRange(t.dims, At(h, i, c))
    requires IsValue(x, h, n, n, X) && IsValue(y, h, n, d, Y)
    ensures IsValue(t, h, n, d, Mul(n, X, Y))
  {
    hide Dot, MatrixProduct, HasValue, Get;
    forall i, c | 0 <= i < n && 0 <= c < d
      ensures HasValue(Get(t, At(h, i, c)), Mul(n, X, Y)(i, c))
    {
      forall k | 0 <= k < n
        ensures HasValue(Get(x, At(h, i, c).(c := k)), Row(X, i)(k))
        ensures HasValue(Get(y, At(h, i, c).(i := k)), Row(Transpose(Y), c)(k))
      {
        assert At(h, i, c).(c := k) == At(h, i, k) && At(h, i, c).(i := k) == At(h, k, c);
      }
      ProductValue(x, y, At(h, i, c), Row(X, i), Row(Transpose(Y), c));
      GetInRange(t, At(h, i, c));
    }
  }

  lemma ProductTN(x: Tensor, y: Tensor, t: Tensor, h: Head, n: nat, d: nat, X: Matrix, Y: Matrix)
    requires t == MatrixProduct(Transposed(x), y) && x.dims.i == n
    requires forall i, c | 0 <= i < n && 0 <= c < d :: InRange(t.dims, At(h, i, c))
    requires IsValue(x, h, n, n, X) && IsValue(y, h, n, d, Y)
    ensures IsValue(t, h, n, d, MulTN(n, X, Y))
  {
    hide Dot, MatrixProduct, HasValue;
    forall j, c | 0 <= j < n && 0 <= c < d
      ensures HasValue(Get(t, At(h, j, c)), MulTN(n, X, Y)(j, c))
    {
      forall k | 0 <= k < n
        ensures HasValue(Get(Transposed(x), At(h, j, c).(c := k)), Row(Transpose(X), j)(k))
        ensures HasValue(Get(y, At(h, j, c).(i := k)), Row(Transpose(Y), c)(k))
      {
        assert At(h, j, c).(c := k) == At(h, j, k) && At(h, j, c).(i := k) == At(h, k, c);
        assert Get(Transposed(x), At(h, j, k)) == Get(x, At(h, k, j));
      }
      ProductValue(Transposed(x), y, At(h, j, c), Row(Transpose(X), j), Row(Transpose(Y), c));
      GetInRange(t, At(h, j, c));
    }
  }

  /** rowsum(O * dO), as every entry of row i of the correction. */
  lemma CorrectionValue(z: Sizes, o: Tensor, dO: Tensor, oDo: Tensor, correction: Tensor, h: Head, i: int, j: int,
                        O: Matrix, D: Matrix)
    requires oDo == Elementwise(Times, o, dO) && correction == Reduced(4, oDo)
    requires oDo.dims == z.Query() && correction.dims == z.Stats() && IsHead(z, h) && 0 <= i < z.n
    requires IsValue(o, h, z.n, z.d, O) && IsValue(dO, h, z.n, z.d, D)
    ensures HasValue(Get(correction, At(h, i, j)), RowInner(z.d, O, D)(i))
  {
    hide Elementwise;
    var x := At(h, i, 0);
    forall c | 0 <= c < z.d
      ensures HasValue(Get(oDo, x.(c := c)), Prod(Row(O, i), Row(D, i))(c))
    {
      assert x.(c := c) == At(h, i, c);
      ElementwiseEntry(Times, o, dO, oDo, At(h, i, c));
    }
    ReducedValue(4, oDo, x, Prod(Row(O, i), Row(D, i)));
    assert Get(correction, At(h, i, j)) == correction.at(x);
  }

  lemma GradientNumber(p: Num, dp: Num, c: Num, a: Num)
    requires p.Fin? && dp.Fin? && c.Fin? && a.Fin? && a.v != 0.0
    ensures HasValue(Quotient(Times(p, Minus(dp, c)), a), p.v * (dp.v - c.v) / a.v)
  {
  }

  /** The scaled softmax gradient of a head. */
  lemma GradientValue(z: Sizes, env: map<nat, Tensor>, m: ExpLog, t: Backward, h: Head, a: real,
                      P: Matrix, dP: Matrix, O: Matrix, D: Matrix)
    requires BackwardEquations(m, env, t) && IsHead(z, h)
    requires t.probs.dims == z.Score() && t.dpCorrected.dims == z.Score() && t.dmasked.dims == z.Score()
    requires t.dscaled.dims == z.Score() && t.oDo.dims == z.Query() && t.correction.dims == z.Stats()
    requires env[SCALE].dims == UNIT && HasValue(env[SCALE].at(ORIGIN), a) && a != 0.0
    requires IsValue(t.probs, h, z.n, z.n, P) && IsValue(t.dprobs, h, z.n, z.n, dP)
    requires IsValue(env[OUTPUT], h, z.n, z.d, O) && IsValue(env[DOUTPUT], h, z.n, z.d, D)
    ensures IsValue(t.dscaled, h, z.n, z.n, Over(SoftmaxGradient(z.d, P, dP, O, D), a))
  {
    hide Elementwise, MatrixProduct, Reduced, ApplyUnary, Get, RowInner, Quotient, Times, Minus;
    forall i, j | 0 <= i < z.n && 0 <= j < z.n
      ensures HasValue(Get(t.dscaled, At(h, i, j)), Over(SoftmaxGradient(z.d, P, dP, O, D), a)(i, j))
    {
      var x := At(h, i, j);
      CorrectionValue(z, env[OUTPUT], env[DOUTPUT], t.oDo, t.correction, h, i, j, O, D);
      ElementwiseEntry(Minus, t.dprobs, t.correction, t.dpCorrected, x);
      ElementwiseEntry(Times, t.probs, t.dpCorrected, t.dmasked, x);
      ElementwiseEntry(Quotient, t.dmasked, env[SCALE], t.dscaled, x);
      ScalarEntry(env[SCALE], x);
      GradientNumber(Get(t.probs, x), Get(t.dprobs, x), Get(t.correction, x), env[SCALE].at(ORIGIN));
    }
  }

  /** A head of the three gradients the backward graph returns before the
      reductions over the query heads of a group. */
  lemma BackwardHead(m: ExpLog, z: Sizes, fwd: map<nat, Tensor>, bwd: map<nat, Tensor>, t: Backward, h: Head)
    requires Lawful(m) && Inputs(z, fwd) && ForwardEquations(m, fwd) && Constants(z, fwd[SCALE], fwd[MASK])
    requires ReadsForward(z, fwd, bwd) && BackwardEquations(m, bwd, t) && IsHead(z, h)
    ensures var P, Q, K, V := Values(fwd[7], h), Values(fwd[QUERY], h), Values(fwd[KEY], h), Values(fwd[VALUE], h);
            var D, a := Values(bwd[DOUTPUT], h), fwd[SCALE].at(ORIGIN).v;
            var G := Over(SoftmaxGradient(z.d, P, MulNT(z.d, D, V), Mul(z.n, P, V), D), a);
            && IsValue(t.dquery, h, z.n, z.d, Mul(z.n, G, K))
            && IsValue(t.dkey, h, z.n, z.d, MulTN(z.n, G, Q))
            && IsValue(t.dvalue, h, z.n, z.d, MulTN(z.n, P, D))
  {
    hide Elementwise, MatrixProduct, Reduced, ApplyUnary, Get, AllFinite, IsDual, IsValue, Constants, Lawful, ScoreEquations;
    hide Values, Tangents, Mul, MulTN, MulNT, SoftmaxGradient, Over;
    var P, Q, K, V := Values(fwd[7], h), Values(fwd[QUERY], h), Values(fwd[KEY], h), Values(fwd[VALUE], h);
    var D, a := Values(bwd[DOUTPUT], h), fwd[SCALE].at(ORIGIN).v;
    BackwardInputs(z, fwd, bwd);
    ForwardShapes(m, z, fwd);
    BackwardShapes(m, z, bwd, t);
    BackwardProbs(m, z, fwd, bwd, t, h);
    SameHead(bwd[QUERY], fwd[QUERY], h, z.n, z.d);
    SameHead(bwd[KEY], fwd[KEY], h, z.n, z.d);
    SameHead(bwd[VALUE], fwd[VALUE], h, z.n, z.d);
    OutputGradientIsValue(z, bwd[DOUTPUT], h);
    OutputIsValue(m, z, fwd, bwd, h);
    ProductNT(bwd[DOUTPUT], bwd[VALUE], t.dprobs, h, z.n, z.d, D, V);
    GradientValue(z, bwd, m, t, h, a, P, MulNT(z.d, D, V), Mul(z.n, P, V), D);
    var G := Over(SoftmaxGradient(z.d, P, MulNT(z.d, D, V), Mul(z.n, P, V), D), a);
    ProductNN(t.dscaled, bwd[KEY], t.dquery, h, z.n, z.d, G, K);
    ProductTN(t.dscaled, bwd[QUERY], t.dkey, h, z.n, z.d, G, Q);
    ProductTN(t.probs, bwd[DOUTPUT], t.dvalue, h, z.n, z.d, P, D);
  }

  lemma OutputGradientIsValue(z: Sizes, t: Tensor, h: Head)
    requires t.dims == z.Query() && AllFinite(t) && IsHead(z, h)
    ensures IsValue(t, h, z.n, z.d, Values(t, h))
  {
    InputIsDual(t, h, z.n, z.d);
  }

  lemma OutputIsValue(m: ExpLog, z: Sizes, fwd: map<nat, Tensor>, bwd: map<nat, Tensor>, h: Head)
    requires Lawful(m) && Inputs(z, fwd) && ForwardEquations(m, fwd) && Constants(z, fwd[SCALE], fwd[MASK])
    requires ReadsForward(z, fwd, bwd) && IsHead(z, h)
    ensures IsValue(bwd[OUTPUT], h, z.n, z.d, Mul(z.n, Values(fwd[7], h), Values(fwd[VALUE], h)))
  {
    hide Elementwise, MatrixProduct, ApplyUnary, AllFinite, Constants, Lawful, ScoreEquations, HeadOutputTangent, Mul, Values;
    ForwardShapes(m, z, fwd);
    forall i, c | 0 <= i < z.n && 0 <= c < z.d
      ensures HasValue(Get(bwd[OUTPUT], At(h, i, c)), Mul(z.n, Values(fwd[7], h), Values(fwd[VALUE], h))(i, c))
    {
      ForwardOutput(m, z, fwd, h, i, c);
      assert InRange(z.Query(), At(h, i, c));
      GetInRange(bwd[OUTPUT], At(h, i, c));
    }
  }

  /** The adjoint identity for one query head. */
  lemma HeadIdentity(m: ExpLog, z: Sizes, fwd: map<nat, Tensor>, bwd: map<nat, Tensor>, t: Backward, h: Head)
    requires Lawful(m) && Inputs(z, fwd) && ForwardEquations(m, fwd) && Constants(z, fwd[SCALE], fwd[MASK])
    requires ReadsForward(z, fwd, bwd) && BackwardEquations(m, bwd, t) && IsHead(z, h)
    ensures HeadPairing(z, bwd[DOUTPUT], fwd[OUTPUT], h)
            == HeadPairing(z, t.dquery, fwd[QUERY], h) + HeadPairing(z, t.dkey, fwd[KEY], h)
               + HeadPairing(z, t.dvalue, fwd[VALUE], h)
  {
    hide Elementwise, MatrixProduct, Reduced, ApplyUnary, Get, AllFinite, Constants, Lawful, ScoreEquations, Inner;
    hide Mul, MulTN, MulNT, SoftmaxGradient, Over, OutputTangent, SoftmaxTangent, ScoreTangent;
    var P, D, a := Values(fwd[7], h), Values(bwd[DOUTPUT], h), fwd[SCALE].at(ORIGIN).v;
    var Q, K, V := Values(fwd[QUERY], h), Values(fwd[KEY], h), Values(fwd[VALUE], h);
    var Q', K', V' := Tangents(fwd[QUERY], h), Tangents(fwd[KEY], h), Tangents(fwd[VALUE], h);
    var G := Over(SoftmaxGradient(z.d, P, MulNT(z.d, D, V), Mul(z.n, P, V), D), a);
    HeadAdjoint(z.n, z.d, a, P, Q, Q', K, K', V, V', D);
    BackwardHead(m, z, fwd, bwd, t, h);
    InnerLeft(z.n, z.d, Values(t.dquery, h), Mul(z.n, G, K), Q');
    InnerLeft(z.n, z.d, Values(t.dkey, h), MulTN(z.n, G, Q), K');
    InnerLeft(z.n, z.d, Values(t.dvalue, h), MulTN(z.n, P, D), V');
    OutputTangentIs(m, z, fwd, h);
    InnerRight(z.n, z.d, D, Tangents(fwd[OUTPUT], h), HeadOutputTangent(z, fwd, h));
  }

  lemma OutputTangentIs(m: ExpLog, z: Sizes, fwd: map<nat, Tensor>, h: Head)
    requires Lawful(m) && Inputs(z, fwd) && ForwardEquations(m, fwd) && Constants(z, fwd[SCALE], fwd[MASK])
    requires IsHead(z, h)
    ensures forall i, c | 0 <= i < z.n && 0 <= c < z.d ::
              Tangents(fwd[OUTPUT], h)(i, c) == HeadOutputTangent(z, fwd, h)(i, c)
  {
    hide Elementwise, MatrixProduct, ApplyUnary, AllFinite, Constants, Lawful, ScoreEquations, HeadOutputTangent, Mul, Values;
    ForwardShapes(m, z, fwd);
    forall i, c | 0 <= i < z.n && 0 <= c < z.d
      ensures Tangents(fwd[OUTPUT], h)(i, c) == HeadOutputTangent(z, fwd, h)(i, c)
    {
      ForwardOutput(m, z, fwd, h, i, c);
      assert InRange(z.Query(), At(h, i, c));
      GetInRange(fwd[OUTPUT], At(h, i, c));
    }
  }

  lemma InnerLeft(m: nat, n: nat, X: Matrix, Z: Matrix, Y: Matrix)
    requires forall i, j | 0 <= i < m && 0 <= j < n :: X(i, j) == Z(i, j)
    ensures Inner(m, n, X, Y) == Inner(m, n, Z, Y)
  {
    InnerExt(m, n, X, Y, Z, Y);
  }

  lemma InnerRight(m: nat, n: nat, X: Matrix, Y: Matrix, Z: Matrix)
    requires forall i, j | 0 <= i < m && 0 <= j < n :: Y(i, j) == Z(i, j)
    ensures Inner(m, n, X, Y) == Inner(m, n, X, Z)
  {
    InnerExt(m, n, X, Y, X, Z);
  }

  // Sums over heads

  /** The values of x against the tangents of y, in head h. */
  function HeadPairing(z: Sizes, x: Tensor, y: Tensor, h: Head): real {
    Inner(z.n, z.d, Values(x, h), Tangents(y, h))
  }

  function GroupPairings(z: Sizes, x: Tensor, y: Tensor, b: int, g: int): Vector {
    r => HeadPairing(z, x, y, Head(b, g, r))
  }

  /** The values of x against the tangents of y, over all query heads ... */
  function QueryPairing(z: Sizes, x: Tensor, y: Tensor): real {
    Sum2(z.mb, z.kv, (b, g) => Sum(z.rep, GroupPairings(z, x, y, b, g)))
  }

  /** ... and over all key/value heads. */
  function KeyValuePairing(z: Sizes, x: Tensor, y: Tensor): real {
    Sum2(z.mb, z.kv, (b, g) => HeadPairing(z, x, y, Head(b, g, 0)))
  }

  /** The entrywise sum of the first R matrices. */
  function SumMatrix(R: nat, X: int -> Matrix): Matrix {
    (i, c) => Sum(R, r => X(r)(i, c))
  }

  lemma InnerIsZero(n: nat, d: nat, X: Matrix, Y: Matrix)
    requires forall i, c | 0 <= i < n && 0 <= c < d :: X(i, c) == 0.0
    ensures Inner(n, d, X, Y) == 0.0
  {
    forall i | 0 <= i < n
      ensures RowInner(d, X, Y)(i) == 0.0
    {
      SumZero(d, Prod(Row(X, i), Row(Y, i)));
    }
    SumZero(n, RowInner(d, X, Y));
  }

  /** Pairing is linear in the gradient: summing over a group before or after. */
  lemma {:induction false} SumOfInners(R: nat, n: nat, d: nat, X: int -> Matrix, Y: Matrix, f: Vector)
    requires forall r | 0 <= r < R :: f(r) == Inner(n, d, X(r), Y)
    ensures Sum(R, f) == Inner(n, d, SumMatrix(R, X), Y)
  {
    if R == 0 {
      InnerIsZero(n, d, SumMatrix(R, X), Y);
    } else {
      SumOfInners(R - 1, n, d, X, Y, f);
      InnerComm(n, d, SumMatrix(R - 1, X), Y);
      InnerComm(n, d, X(R - 1), Y);
      InnerAdd(n, d, Y, SumMatrix(R - 1, X), X(R - 1));
      InnerComm(n, d, AttentionAdjoint.Plus(SumMatrix(R - 1, X), X(R - 1)), Y);
      InnerLeft(n, d, SumMatrix(R, X), AttentionAdjoint.Plus(SumMatrix(R - 1, X), X(R - 1)), Y);
    }
  }

  /** The reduction over axis 2 sums the heads of a group. */
  lemma ReducedHead(z: Sizes, t: Tensor, b: int, g: int)
    requires t.dims == z.Query() && 0 <= b < z.mb && 0 <= g < z.kv
    requires forall r | 0 <= r < z.rep :: IsValue(t, Head(b, g, r), z.n, z.d, Values(t, Head(b, g, r)))
    ensures Reduced(2, t).dims == z.KeyValue()
    ensures forall i, c | 0 <= i < z.n && 0 <= c < z.d ::
              Values(Reduced(2, t), Head(b, g, 0))(i, c) == SumMatrix(z.rep, r => Values(t, Head(b, g, r)))(i, c)
  {
    var u := Reduced(2, t);
    forall i, c | 0 <= i < z.n && 0 <= c < z.d
      ensures Values(u, Head(b, g, 0))(i, c) == SumMatrix(z.rep, r => Values(t, Head(b, g, r)))(i, c)
    {
      var x := At(Head(b, g, 0), i, c);
      var v: Vector := r => Values(t, Head(b, g, r))(i, c);
      forall r | 0 <= r < z.rep
        ensures HasValue(Get(t, x.(r := r)), v(r))
      {
        assert x.(r := r) == At(Head(b, g, r), i, c);
      }
      ReducedValue(2, t, x, v);
      GetInRange(u, x);
      SumExt(z.rep, v, r => (k => Values(t, Head(b, g, k)))(r)(i, c));
    }
  }

  /** Reducing a gradient over the query heads of a group is the adjoint of
      broadcasting the key or value over them. */
  lemma ReductionIsAdjoint(z: Sizes, t: Tensor, y: Tensor, b: int, g: int)
    requires t.dims == z.Query() && y.dims == z.KeyValue() && 0 <= b < z.mb && 0 <= g < z.kv
    requires forall r | 0 <= r < z.rep :: IsValue(t, Head(b, g, r), z.n, z.d, Values(t, Head(b, g, r)))
    ensures Sum(z.rep, GroupPairings(z, t, y, b, g)) == HeadPairing(z, Reduced(2, t), y, Head(b, g, 0))
  {
    var X: int -> Matrix := r => Values(t, Head(b, g, r));
    var Y := Tangents(y, Head(b, g, 0));
    ReducedHead(z, t, b, g);
    hide Reduced, IsValue, Inner;
    forall r | 0 <= r < z.rep
      ensures GroupPairings(z, t, y, b, g)(r) == Inner(z.n, z.d, X(r), Y)
    {
      InnerRight(z.n, z.d, X(r), Tangents(y, Head(b, g, r)), Y);
    }
    SumOfInners(z.rep, z.n, z.d, X, Y, GroupPairings(z, t, y, b, g));
    InnerLeft(z.n, z.d, Values(Reduced(2, t), Head(b, g, 0)), SumMatrix(z.rep, X), Y);
  }

  /** The tensors of a training step that the adjoint identity is about. */
  ghost predicate TrainingStep(m: ExpLog, z: Sizes, fwd: map<nat, Tensor>, bwd: map<nat, Tensor>, t: Backward) {
    && Lawful(m)
    && Inputs(z, fwd) && ForwardEquations(m, fwd) && Constants(z, fwd[SCALE], fwd[MASK])
    && ReadsForward(z, fwd, bwd) && BackwardEquations(m, bwd, t)
  }

  /** The shapes of the gradients before reduction, and that they are finite. */
  lemma GradientsAreFinite(m: ExpLog, z: Sizes, fwd: map<nat, Tensor>, bwd: map<nat, Tensor>, t: Backward, b: int, g: int)
    requires TrainingStep(m, z, fwd, bwd, t) && 0 <= b < z.mb && 0 <= g < z.kv
    ensures t.dkey.dims == z.Query() && t.dvalue.dims == z.Query()
    ensures forall r | 0 <= r < z.rep :: IsValue(t.dkey, Head(b, g, r), z.n, z.d, Values(t.dkey, Head(b, g, r)))
    ensures forall r | 0 <= r < z.rep :: IsValue(t.dvalue, Head(b, g, r), z.n, z.d, Values(t.dvalue, Head(b, g, r)))
  {
    hide Elementwise, MatrixProduct, Reduced, ApplyUnary, AllFinite, Constants, Lawful, ScoreEquations, Mul, MulTN;
    BackwardInputs(z, fwd, bwd);
    ForwardShapes(m, z, fwd);
    BackwardShapes(m, z, bwd, t);
    forall r | 0 <= r < z.rep
      ensures IsValue(t.dkey, Head(b, g, r), z.n, z.d, Values(t.dkey, Head(b, g, r)))
      ensures IsValue(t.dvalue, Head(b, g, r), z.n, z.d, Values(t.dvalue, Head(b, g, r)))
    {
      BackwardHead(m, z, fwd, bwd, t, Head(b, g, r));
    }
  }

  /** The adjoint identity for the query heads that share one key/value head. */
  lemma GroupIdentity(m: ExpLog, z: Sizes, fwd: map<nat, Tensor>, bwd: map<nat, Tensor>, t: Backward, b: int, g: int)
    requires TrainingStep(m, z, fwd, bwd, t) && 0 <= b < z.mb && 0 <= g < z.kv
    ensures Sum(z.rep, GroupPairings(z, bwd[DOUTPUT], fwd[OUTPUT], b, g))
            == Sum(z.rep, GroupPairings(z, t.dquery, fwd[QUERY], b, g))
               + HeadPairing(z, Reduced(2, t.dkey), fwd[KEY], Head(b, g, 0))
               + HeadPairing(z, Reduced(2, t.dvalue), fwd[VALUE], Head(b, g, 0))
  {
    hide Elementwise, MatrixProduct, Reduced, ApplyUnary, AllFinite, Constants, Lawful, ScoreEquations, HeadPairing, IsValue;
    var dO, dQ := GroupPairings(z, bwd[DOUTPUT], fwd[OUTPUT], b, g), GroupPairings(z, t.dquery, fwd[QUERY], b, g);
    var dK, dV := GroupPairings(z, t.dkey, fwd[KEY], b, g), GroupPairings(z, t.dvalue, fwd[VALUE], b, g);
    forall r | 0 <= r < z.rep
      ensures dO(r) == Added(Added(dQ, dK), dV)(r)
    {
      HeadIdentity(m, z, fwd, bwd, t, Head(b, g, r));
    }
    SumExt(z.rep, dO, Added(Added(dQ, dK), dV));
    SumAdd(z.rep, Added(dQ, dK), dV);
    SumAdd(z.rep, dQ, dK);
    GradientsAreFinite(m, z, fwd, bwd, t, b, g);
    ReductionIsAdjoint(z, t.dkey, fwd[KEY], b, g);
    ReductionIsAdjoint(z, t.dvalue, fwd[VALUE], b, g);
  }

  lemma StepIsAdjoint(m: ExpLog, z: Sizes, fwd: map<nat, Tensor>, bwd: map<nat, Tensor>, t: Backward)
    requires TrainingStep(m, z, fwd, bwd, t)
    ensures QueryPairing(z, bwd[DOUTPUT], fwd[OUTPUT])
            == QueryPairing(z, t.dquery, fwd[QUERY])
               + KeyValuePairing(z, Reduced(2, t.dkey), fwd[KEY])
               + KeyValuePairing(z, Reduced(2, t.dvalue), fwd[VALUE])
  {
    hide TrainingStep, GroupPairings, HeadPairing;
    assert OUTPUT in fwd && DOUTPUT in bwd && QUERY in fwd && KEY in fwd && VALUE in fwd by {
      HasTensors(m, z, fwd, bwd, t);
    }
    var o: Matrix := (b, g) => Sum(z.rep, GroupPairings(z, bwd[DOUTPUT], fwd[OUTPUT], b, g));
    var q: Matrix := (b, g) => Sum(z.rep, GroupPairings(z, t.dquery, fwd[QUERY], b, g));
    var k: Matrix := (b, g) => HeadPairing(z, Reduced(2, t.dkey), fwd[KEY], Head(b, g, 0));
    var v: Matrix := (b, g) => HeadPairing(z, Reduced(2, t.dvalue), fwd[VALUE], Head(b, g, 0));
    var qk: Matrix := AttentionAdjoint.Plus(q, k);
    forall b, g | 0 <= b < z.mb && 0 <= g < z.kv
      ensures o(b, g) == qk(b, g) + v(b, g)
    {
      GroupIdentity(m, z, fwd, bwd, t, b, g);
    }
    Sum2Add(z.mb, z.kv, qk, v, o);
    Sum2Add(z.mb, z.kv, q, k, qk);
    Sum2Ext(z.mb, z.kv, o, (b, g) => Sum(z.rep, GroupPairings(z, bwd[DOUTPUT], fwd[OUTPUT], b, g)));
    Sum2Ext(z.mb, z.kv, q, (b, g) => Sum(z.rep, GroupPairings(z, t.dquery, fwd[QUERY], b, g)));
    Sum2Ext(z.mb, z.kv, k, (b, g) => HeadPairing(z, Reduced(2, t.dkey), fwd[KEY], Head(b, g, 0)));
    Sum2Ext(z.mb, z.kv, v, (b, g) => HeadPairing(z, Reduced(2, t.dvalue), fwd[VALUE], Head(b, g, 0)));
  }

  lemma HasTensors(m: ExpLog, z: Sizes, fwd: map<nat, Tensor>, bwd: map<nat, Tensor>, t: Backward)
    requires TrainingStep(m, z, fwd, bwd, t)
    ensures OUTPUT in fwd && DOUTPUT in bwd && QUERY in fwd && KEY in fwd && VALUE in fwd
  {
  }

  /** The backward graph is the adjoint of the derivative of the forward graph:
      <dO, O'> == <dQ, Q'> + <dK, K'> + <dV, V'>, for all sizes with at least
      one key/value head, all finite inputs, masks, output gradients and
      directions (Q', K', V'), with and without type casts, and for every pair
      of environments that satisfy the two graphs. */
  lemma BackwardIsAdjoint(m: ExpLog, p: GqaDims, cast: bool, fwd: map<nat, Tensor>, bwd: map<nat, Tensor>)
    requires Lawful(m) && p.kvHeads > 0
    requires Inputs(SizesOf(p), fwd) && Constants(SizesOf(p), fwd[SCALE], fwd[MASK])
    requires Solves(Apply(m), ForwardOps(), fwd) && Solves(Apply(m), BackwardOps(cast), bwd)
    requires ReadsForward(SizesOf(p), fwd, bwd)
    ensures DQuery(cast) in bwd && DKeyReduced(cast) in bwd && DValueReduced(cast) in bwd
    ensures var z := SizesOf(p);
            QueryPairing(z, bwd[DOUTPUT], fwd[OUTPUT])
            == QueryPairing(z, bwd[DQuery(cast)], fwd[QUERY])
               + KeyValuePairing(z, bwd[DKeyReduced(cast)], fwd[KEY])
               + KeyValuePairing(z, bwd[DValueReduced(cast)], fwd[VALUE])
  {
    hide QueryPairing, KeyValuePairing, Lawful, Inputs, Constants, ForwardEquations, BackwardEquations, Solves, ForwardOps, BackwardOps, Apply;
    ForwardSolved(m, fwd);
    var t := BackwardSolved(m, cast, bwd);
    StepIsAdjoint(m, SizesOf(p), fwd, bwd, t);
  }
}
