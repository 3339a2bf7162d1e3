/** The equations that a solved forward or backward graph of grouped-query
    attention satisfies, the same with and without type casts. */
module GqaEquations {
  import opened DualNumbers
  import opened Dataflow
  import opened TensorOps
  import opened GqaGraph

  lemma SolvedBinary(m: ExpLog, ops: seq<GraphOp>, p: GraphOp, env: map<nat, Tensor>, a: nat, b: nat, o: nat)
    requires Solves(Apply(m), ops, env) && p in ops && p.ins == [a, b] && p.outs == [o]
    ensures a in env && b in env && o in env
    ensures env[o] == ApplyBinary(p.kind, env[a], env[b])
  {
    assert Holds(Apply(m), p, env);
    assert a == p.ins[0] && b == p.ins[1] && o == p.outs[0];
    assert Lookup(env, p.ins) == [env[a], env[b]];
  }

  lemma SolvedUnary(m: ExpLog, ops: seq<GraphOp>, p: GraphOp, env: map<nat, Tensor>, a: nat, o: nat)
    requires Solves(Apply(m), ops, env) && p in ops && p.ins == [a] && |p.outs| > 0 && p.outs[0] == o
    ensures a in env && o in env
    ensures env[o] == ApplyUnary(m, p.kind, env[a], 0)
    ensures |p.outs| > 1 ==> p.outs[1] in env && env[p.outs[1]] == ApplyUnary(m, p.kind, env[a], 1)
  {
    assert Holds(Apply(m), p, env);
    assert a == p.ins[0];
    assert Lookup(env, p.ins) == [env[a]];
  }

  lemma SlotBinary(m: ExpLog, cast: bool, s: nat, env: map<nat, Tensor>, kind: Kind, a: nat, b: nat, o: nat)
    requires Solves(Apply(m), BackwardOps(cast), env) && Present(cast, s)
    requires Slot(cast, s).kind == kind && Slot(cast, s).ins == [a, b] && Slot(cast, s).outs == [o]
    ensures a in env && b in env && o in env
    ensures env[o] == ApplyBinary(kind, env[a], env[b])
  {
    SlotIsCreated(cast, s);
    SolvedBinary(m, BackwardOps(cast), Slot(cast, s), env, a, b, o);
  }

  lemma SlotUnary(m: ExpLog, cast: bool, s: nat, env: map<nat, Tensor>, kind: Kind, a: nat, o: nat)
    requires Solves(Apply(m), BackwardOps(cast), env) && Present(cast, s)
    requires Slot(cast, s).kind == kind && Slot(cast, s).ins == [a] && Slot(cast, s).outs == [o]
    ensures a in env && o in env
    ensures env[o] == ApplyUnary(m, kind, env[a], 0)
  {
    SlotIsCreated(cast, s);
    SolvedUnary(m, BackwardOps(cast), Slot(cast, s), env, a, o);
  }

  /** The equations of the first three operations of both graphs. */
  ghost predicate ScoreEquations(env: map<nat, Tensor>) {
    && QUERY in env && KEY in env && SCALE in env && MASK in env && 1 in env && 3 in env && 5 in env
    && env[1] == MatrixProduct(env[QUERY], Transposed(env[KEY]))
    && env[3] == Elementwise(Quotient, env[1], env[SCALE])
    && env[5] == Elementwise(DualNumbers.Plus, env[3], env[MASK])
  }

  ghost predicate ForwardEquations(m: ExpLog, env: map<nat, Tensor>) {
    && ScoreEquations(env)
    && VALUE in env && 7 in env && STATS in env && OUTPUT in env
    && env[7] == ApplyUnary(m, SoftMax, env[5], 0)
    && env[STATS] == ApplyUnary(m, SoftMax, env[5], 1)
    && env[OUTPUT] == MatrixProduct(env[7], env[VALUE])
  }

  lemma ForwardSolved(m: ExpLog, env: map<nat, Tensor>)
    requires Solves(Apply(m), ForwardOps(), env)
    ensures ForwardEquations(m, env)
  {
    var f := ForwardOps();
    SolvedBinary(m, f, f[0], env, QUERY, KEY, 1);
    SolvedBinary(m, f, f[1], env, 1, SCALE, 3);
    SolvedBinary(m, f, f[2], env, 3, MASK, 5);
    SolvedUnary(m, f, f[3], env, 5, 7);
    SolvedBinary(m, f, f[4], env, 7, VALUE, OUTPUT);
  }

  /** The tensors of a solved backward graph. */
  datatype Backward = Backward(
    sub: Tensor, probs: Tensor, dvalue: Tensor, dprobs: Tensor, oDo: Tensor, correction: Tensor,
    dpCorrected: Tensor, dmasked: Tensor, dscaled: Tensor, dquery: Tensor, dkey: Tensor)

  ghost predicate BackwardEquations(m: ExpLog, env: map<nat, Tensor>, t: Backward) {
    && ScoreEquations(env)
    && VALUE in env && STATS in env && OUTPUT in env && DOUTPUT in env
    && t.sub == Elementwise(Minus, env[5], env[STATS])
    && t.probs == ApplyUnary(m, Exp, t.sub, 0)
    && t.dvalue == MatrixProduct(Transposed(t.probs), env[DOUTPUT])
    && t.dprobs == MatrixProduct(env[DOUTPUT], Transposed(env[VALUE]))
    && t.oDo == Elementwise(Times, env[OUTPUT], env[DOUTPUT])
    && t.correction == Reduced(4, t.oDo)
    && t.dpCorrected == Elementwise(Minus, t.dprobs, t.correction)
    && t.dmasked == Elementwise(Times, t.probs, t.dpCorrected)
    && t.dscaled == Elementwise(Quotient, t.dmasked, env[SCALE])
    && t.dquery == MatrixProduct(t.dscaled, env[KEY])
    && t.dkey == MatrixProduct(Transposed(t.dscaled), env[QUERY])
  }

  lemma ScoreSolved(m: ExpLog, cast: bool, env: map<nat, Tensor>)
    requires Solves(Apply(m), BackwardOps(cast), env)
    ensures ScoreEquations(env)
  {
    SlotBinary(m, cast, 0, env, MatMul(false, true), QUERY, KEY, 1);
    SlotBinary(m, cast, 1, env, Divide, 1, SCALE, 3);
    SlotBinary(m, cast, 2, env, Add, 3, MASK, 5);
  }

  /** The probabilities, and their copy under a type cast. */
  lemma ProbabilitiesSolved(m: ExpLog, cast: bool, env: map<nat, Tensor>)
    requires Solves(Apply(m), BackwardOps(cast), env)
    ensures 5 in env && STATS in env && 7 in env && Probs(cast) in env && ProbsCast(cast) in env
    ensures env[7] == Elementwise(Minus, env[5], env[STATS])
    ensures env[Probs(cast)] == ApplyUnary(m, Exp, env[7], 0)
    ensures env[ProbsCast(cast)] == env[Probs(cast)]
  {
    SlotBinary(m, cast, 3, env, Subtract, 5, STATS, 7);
    SlotUnary(m, cast, 4, env, Exp, 7, Probs(cast));
    if cast {
      SlotUnary(m, cast, 5, env, TypeCast, Probs(cast), ProbsCast(cast));
    }
  }

  lemma CorrectionSolved(m: ExpLog, cast: bool, env: map<nat, Tensor>)
    requires Solves(Apply(m), BackwardOps(cast), env)
    ensures OUTPUT in env && DOUTPUT in env && ODo(cast) in env && Correction(cast) in env
    ensures env[ODo(cast)] == Elementwise(Times, env[OUTPUT], env[DOUTPUT])
    ensures env[Correction(cast)] == Reduced(4, env[ODo(cast)])
  {
    SlotBinary(m, cast, 9, env, Multiply, OUTPUT, DOUTPUT, ODo(cast));
    SlotUnary(m, cast, 10, env, ReduceSum(4), ODo(cast), Correction(cast));
  }

  lemma CorrectedSolved(m: ExpLog, cast: bool, env: map<nat, Tensor>)
    requires Solves(Apply(m), BackwardOps(cast), env)
    ensures DOUTPUT in env && VALUE in env
    ensures Correction(cast) in env && DProbs(cast) in env && DpCorrected(cast) in env
    ensures env[DProbs(cast)] == MatrixProduct(env[DOUTPUT], Transposed(env[VALUE]))
    ensures env[DpCorrected(cast)] == Elementwise(Minus, env[DProbs(cast)], env[Correction(cast)])
  {
    SlotBinary(m, cast, 8, env, MatMul(false, true), DOUTPUT, VALUE, DProbs(cast));
    SlotBinary(m, cast, 11, env, Subtract, DProbs(cast), Correction(cast), DpCorrected(cast));
  }

  lemma ScaledGradientSolved(m: ExpLog, cast: bool, env: map<nat, Tensor>)
    requires Solves(Apply(m), BackwardOps(cast), env)
    ensures Probs(cast) in env && DpCorrected(cast) in env && DMasked(cast) in env && SCALE in env
    ensures DScaled(cast) in env && DScaledCast(cast) in env
    ensures env[DMasked(cast)] == Elementwise(Times, env[Probs(cast)], env[DpCorrected(cast)])
    ensures env[DScaled(cast)] == Elementwise(Quotient, env[DMasked(cast)], env[SCALE])
    ensures env[DScaledCast(cast)] == env[DScaled(cast)]
  {
    SlotBinary(m, cast, 12, env, Multiply, Probs(cast), DpCorrected(cast), DMasked(cast));
    SlotBinary(m, cast, 13, env, Divide, DMasked(cast), SCALE, DScaled(cast));
    if cast {
      SlotUnary(m, cast, 14, env, TypeCast, DScaled(cast), DScaledCast(cast));
    }
  }

  lemma ValueGradientSolved(m: ExpLog, cast: bool, env: map<nat, Tensor>)
    requires Solves(Apply(m), BackwardOps(cast), env)
    ensures ProbsCast(cast) in env && DOUTPUT in env && DValue(cast) in env && DValueReduced(cast) in env
    ensures env[DValue(cast)] == MatrixProduct(Transposed(env[ProbsCast(cast)]), env[DOUTPUT])
    ensures env[DValueReduced(cast)] == Reduced(2, env[DValue(cast)])
  {
    SlotBinary(m, cast, 6, env, MatMul(true, false), ProbsCast(cast), DOUTPUT, DValue(cast));
    SlotUnary(m, cast, 7, env, ReduceSum(2), DValue(cast), DValueReduced(cast));
  }

  lemma QueryGradientSolved(m: ExpLog, cast: bool, env: map<nat, Tensor>)
    requires Solves(Apply(m), BackwardOps(cast), env)
    ensures DScaledCast(cast) in env && KEY in env && DQuery(cast) in env
    ensures env[DQuery(cast)] == MatrixProduct(env[DScaledCast(cast)], env[KEY])
  {
    SlotBinary(m, cast, 15, env, MatMul(false, false), DScaledCast(cast), KEY, DQuery(cast));
  }

  lemma KeyGradientSolved(m: ExpLog, cast: bool, env: map<nat, Tensor>)
    requires Solves(Apply(m), BackwardOps(cast), env)
    ensures DScaledCast(cast) in env && QUERY in env && DKey(cast) in env && DKeyReduced(cast) in env
    ensures env[DKey(cast)] == MatrixProduct(Transposed(env[DScaledCast(cast)]), env[QUERY])
    ensures env[DKeyReduced(cast)] == Reduced(2, env[DKey(cast)])
  {
    SlotBinary(m, cast, 16, env, MatMul(true, false), DScaledCast(cast), QUERY, DKey(cast));
    SlotUnary(m, cast, 17, env, ReduceSum(2), DKey(cast), DKeyReduced(cast));
  }

  /** With or without type casts, a solved backward graph satisfies the same
      equations. */
  lemma BackwardSolved(m: ExpLog, cast: bool, env: map<nat, Tensor>) returns (t: Backward)
    requires Solves(Apply(m), BackwardOps(cast), env)
    ensures BackwardEquations(m, env, t)
    ensures DQuery(cast) in env && env[DQuery(cast)] == t.dquery
    ensures DKeyReduced(cast) in env && env[DKeyReduced(cast)] == Reduced(2, t.dkey)
    ensures DValueReduced(cast) in env && env[DValueReduced(cast)] == Reduced(2, t.dvalue)
  {
    ScoreSolved(m, cast, env);
    ProbabilitiesSolved(m, cast, env);
    CorrectionSolved(m, cast, env);
    CorrectedSolved(m, cast, env);
    ScaledGradientSolved(m, cast, env);
    ValueGradientSolved(m, cast, env);
    QueryGradientSolved(m, cast, env);
    KeyGradientSolved(m, cast, env);
    t := Backward(env[7], env[Probs(cast)], env[DValue(cast)], env[DProbs(cast)], env[ODo(cast)],
                  env[Correction(cast)], env[DpCorrected(cast)], env[DMasked(cast)], env[DScaled(cast)],
                  env[DQuery(cast)], env[DKey(cast)]);
  }
}
