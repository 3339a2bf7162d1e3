/** A training step of grouped-query attention as it runs: the two graphs
    executed in any order in which inputs are available. */
module GqaTraining {
  import opened RealSums
  import opened DualNumbers
  import opened AttentionAdjoint
  import opened Dataflow
  import opened TensorOps
  import opened GqaGraph
  import opened GqaEquations
  import opened GqaAdjoint
  import Softmax

  /** Whatever order the library executes the operations of the two graphs in,
      the gradients returned are the adjoint of the derivative of the output. */
  lemma {:induction false} TrainingRunIsAdjoint(m: ExpLog, p: GqaDims, cast: bool, inputs: map<nat, Tensor>, saved: map<nat, Tensor>,
                             order: seq<GraphOp>, order': seq<GraphOp>)
    requires Lawful(m) && p.kvHeads > 0
    requires inputs.Keys == FORWARD_INPUTS && saved.Keys == BACKWARD_INPUTS
    requires Inputs(SizesOf(p), inputs) && Constants(SizesOf(p), inputs[SCALE], inputs[MASK])
    requires Schedule(order, ForwardOps(), FORWARD_INPUTS)
    requires Schedule(order', BackwardOps(cast), BACKWARD_INPUTS)
    requires ReadsForward(SizesOf(p), Run(Apply(m), order, inputs), saved)
    ensures var z, fwd, bwd := SizesOf(p), Run(Apply(m), order, inputs), Run(Apply(m), order', saved);
            && OUTPUT in fwd && DQuery(cast) in bwd && DKeyReduced(cast) in bwd && DValueReduced(cast) in bwd
            && QueryPairing(z, saved[DOUTPUT], fwd[OUTPUT])
               == QueryPairing(z, bwd[DQuery(cast)], inputs[QUERY])
                  + KeyValuePairing(z, bwd[DKeyReduced(cast)], inputs[KEY])
                  + KeyValuePairing(z, bwd[DValueReduced(cast)], inputs[VALUE])
  {
    hide QueryPairing, KeyValuePairing, Lawful, ValidInputs, Constants, Solves, ForwardOps, BackwardOps, Apply, SameValues, AllFinite;
    ForwardGraphIsValid();
    BackwardGraphIsValid(cast);
    ScheduleSolves(Apply(m), ForwardOps(), inputs, order);
    ScheduleSolves(Apply(m), BackwardOps(cast), saved, order');
    BackwardIsAdjoint(m, p, cast, Run(Apply(m), order, inputs), Run(Apply(m), order', saved));
  }

  /** The gradient of the masked score, before scaling. */
  lemma MaskedGradientValue(m: ExpLog, z: Sizes, fwd: map<nat, Tensor>, bwd: map<nat, Tensor>, t: Backward, h: Head)
    requires TrainingStep(m, z, fwd, bwd, t) && IsHead(z, h)
    ensures var P, V, D := Values(fwd[7], h), Values(fwd[VALUE], h), Values(bwd[DOUTPUT], h);
            IsValue(t.dmasked, h, z.n, z.n, SoftmaxGradient(z.d, P, MulNT(z.d, D, V), Mul(z.n, P, V), D))
  {
    hide Elementwise, MatrixProduct, Reduced, ApplyUnary, Get, AllFinite, IsDual, Constants, Lawful, ScoreEquations;
    hide Values, Tangents, Mul, MulTN, MulNT, RowInner;
    var P, V, D := Values(fwd[7], h), Values(fwd[VALUE], h), Values(bwd[DOUTPUT], h);
    var dP, O := MulNT(z.d, D, V), Mul(z.n, P, V);
    BackwardInputs(z, fwd, bwd);
    ForwardShapes(m, z, fwd);
    BackwardShapes(m, z, bwd, t);
    BackwardProbs(m, z, fwd, bwd, t, h);
    SameHead(bwd[VALUE], fwd[VALUE], h, z.n, z.d);
    OutputGradientIsValue(z, bwd[DOUTPUT], h);
    OutputIsValue(m, z, fwd, bwd, h);
    ProductNT(bwd[DOUTPUT], bwd[VALUE], t.dprobs, h, z.n, z.d, D, V);
    forall i, j | 0 <= i < z.n && 0 <= j < z.n
      ensures HasValue(Get(t.dmasked, At(h, i, j)), SoftmaxGradient(z.d, P, dP, O, D)(i, j))
    {
      var x := At(h, i, j);
      CorrectionValue(z, bwd[OUTPUT], bwd[DOUTPUT], t.oDo, t.correction, h, i, j, O, D);
      ElementwiseEntry(Minus, t.dprobs, t.correction, t.dpCorrected, x);
      ElementwiseEntry(Times, t.probs, t.dpCorrected, t.dmasked, x);
    }
  }

  lemma ZeroRow(n: nat, p: Vector)
    requires Sum(n, p) == 0.0 && forall j | 0 <= j < n :: p(j) >= 0.0
    ensures forall j | 0 <= j < n :: p(j) == 0.0
  {
    forall j | 0 <= j < n
      ensures p(j) == 0.0
    {
      if p(j) > 0.0 {
        SumPositive(n, p, j);
      }
    }
  }

  /** Every row of the gradient of the masked score sums to zero, whether the
      row is fully masked or not. */
  lemma MaskedGradientRowSumsToZero(m: ExpLog, z: Sizes, fwd: map<nat, Tensor>, bwd: map<nat, Tensor>, t: Backward,
                                    h: Head, i: int)
    requires TrainingStep(m, z, fwd, bwd, t) && IsHead(z, h) && 0 <= i < z.n
    ensures Sum(z.n, Row(Values(t.dmasked, h), i)) == 0.0
  {
    hide Elementwise, MatrixProduct, Reduced, ApplyUnary, Get, AllFinite, IsDual, Constants, Lawful;
    hide Mul, MulTN, MulNT, SoftmaxTangent, HeadScoreTangent, Softmax.TangentOf, Softmax.SomeFinite;
    var P, V, D := Values(fwd[7], h), Values(fwd[VALUE], h), Values(bwd[DOUTPUT], h);
    var dS := SoftmaxGradient(z.d, P, MulNT(z.d, D, V), Mul(z.n, P, V), D);
    MaskedGradientValue(m, z, fwd, bwd, t, h);
    SumExt(z.n, Row(Values(t.dmasked, h), i), Row(dS, i));
    ForwardShapes(m, z, fwd);
    RowHasTangent(z, fwd, h, i);
    ProbabilityRow(m, z, fwd[5], fwd[7], h, i, HeadScoreTangent(z, fwd[QUERY], fwd[KEY], fwd[SCALE].at(ORIGIN).v, h));
    if Sum(z.n, Row(P, i)) == 1.0 {
      GradientRowSumsToZero(z.n, z.d, P, V, D, i);
    } else {
      ZeroRow(z.n, Row(P, i));
      forall j | 0 <= j < z.n
        ensures Row(dS, i)(j) == 0.0
      {
        assert Row(P, i)(j) == 0.0;
      }
      SumZero(z.n, Row(dS, i));
    }
  }
}
