/** The grouped-query attention training graphs: the forward graph, the
    hand-decomposed backward graph, and the counter that numbers their tensors
    and operations. */
module GqaGraph {
  import opened Common
  import opened Dataflow
  import opened TensorOps

  type GraphOp = Op<Kind>

  // Tensors the caller creates.
  const QUERY: nat := 100
  const KEY: nat := 101
  const SCALE: nat := 102
  const MASK: nat := 103
  const VALUE: nat := 104
  const DOUTPUT: nat := 105

  // Tensors of the forward graph that the backward graph reads.
  const STATS: nat := 8
  const OUTPUT: nat := 10

  const FORWARD_INPUTS: set<nat> := {QUERY, KEY, SCALE, MASK, VALUE}
  const BACKWARD_INPUTS: set<nat> := {QUERY, KEY, SCALE, MASK, VALUE, OUTPUT, STATS, DOUTPUT}

  // Forward graph

  function ForwardOp(k: nat): GraphOp
    requires k < 5
  {
    if k == 0 then Op(2, MatMul(false, true), [QUERY, KEY], [1])
    else if k == 1 then Op(4, Divide, [1, SCALE], [3])
    else if k == 2 then Op(6, Add, [3, MASK], [5])
    else if k == 3 then Op(9, SoftMax, [5], [7, STATS])
    else Op(11, MatMul(false, false), [7, VALUE], [OUTPUT])
  }

  function ForwardOps(): seq<GraphOp> {
    seq(5, k requires 0 <= k < 5 => ForwardOp(k))
  }

  /** Builds the forward graph, numbering tensors and operations from one counter. */
  method BuildForward() returns (ops: seq<GraphOp>)
    ensures ops == ForwardOps()
  {
    var id: nat := 1;
    var score := id; id := id + 1;
    var bmm1 := Op(id, MatMul(false, true), [QUERY, KEY], [score]); id := id + 1;
    var scaled := id; id := id + 1;
    var scaleDiv := Op(id, Divide, [score, SCALE], [scaled]); id := id + 1;
    var masked := id; id := id + 1;
    var maskAdd := Op(id, Add, [scaled, MASK], [masked]); id := id + 1;
    var probs := id; id := id + 1;
    var stats := id; id := id + 1;
    var softmax := Op(id, SoftMax, [masked], [probs, stats]); id := id + 1;
    var output := id; id := id + 1;
    var bmm2 := Op(id, MatMul(false, false), [probs, VALUE], [output]); id := id + 1;
    ops := [bmm1, scaleDiv, maskAdd, softmax, bmm2];
  }

  /** The forward graph is valid, and runs in the order its operations are added. */
  lemma ForwardGraphIsValid()
    ensures ValidGraph(ForwardOps(), FORWARD_INPUTS)
    ensures Schedule(ForwardOps(), ForwardOps(), FORWARD_INPUTS)
  {
    var ops := ForwardOps();
    CounterGivesValidGraph(ops, FORWARD_INPUTS, [1, 3, 5, 7, 10, 12]);
    forall k: nat | k < 5
      ensures InputsPrecede(ops, FORWARD_INPUTS, k)
    {
      forall t | t in ops[k].ins && t !in FORWARD_INPUTS
        ensures t in ops[k - 1].outs
      {
      }
    }
    PrecedingInputsRun(ops, FORWARD_INPUTS, 5);
    assert ops[..5] == ops;
  }

  // Backward graph

  /** The identifiers of the tensors of the backward graph; cast says that the
      data type differs from the intermediate one, so that type casts precede
      the matrix products. */
  function Probs(cast: bool): nat { 9 }
  function ProbsCast(cast: bool): nat { if cast then 12 else 9 }
  function DValue(cast: bool): nat { if cast then 13 else 12 }
  function DValueReduced(cast: bool): nat { DValue(cast) + 2 }
  function DProbs(cast: bool): nat { DValue(cast) + 4 }
  function ODo(cast: bool): nat { DValue(cast) + 6 }
  function Correction(cast: bool): nat { DValue(cast) + 8 }
  function DpCorrected(cast: bool): nat { DValue(cast) + 10 }
  function DMasked(cast: bool): nat { DValue(cast) + 12 }
  function DScaled(cast: bool): nat { DValue(cast) + 14 }
  function DScaledCast(cast: bool): nat { if cast then 30 else DScaled(cast) }
  function DQuery(cast: bool): nat { if cast then 31 else 29 }
  function DKey(cast: bool): nat { DQuery(cast) + 2 }
  function DKeyReduced(cast: bool): nat { DQuery(cast) + 4 }

  /** The operation created s-th; 5 and 14 are the type casts. */
  function Slot(cast: bool, s: nat): GraphOp
    requires s < 18
  {
    if s == 0 then Op(2, MatMul(false, true), [QUERY, KEY], [1])
    else if s == 1 then Op(4, Divide, [1, SCALE], [3])
    else if s == 2 then Op(6, Add, [3, MASK], [5])
    else if s == 3 then Op(8, Subtract, [5, STATS], [7])
    else if s == 4 then Op(10, Exp, [7], [Probs(cast)])
    else if s == 5 then Op(11, TypeCast, [Probs(cast)], [ProbsCast(cast)])
    else if s == 6 then Op(DValue(cast) + 1, MatMul(true, false), [ProbsCast(cast), DOUTPUT], [DValue(cast)])
    else if s == 7 then Op(DValueReduced(cast) + 1, ReduceSum(2), [DValue(cast)], [DValueReduced(cast)])
    else if s == 8 then Op(DProbs(cast) + 1, MatMul(false, true), [DOUTPUT, VALUE], [DProbs(cast)])
    else if s == 9 then Op(ODo(cast) + 1, Multiply, [OUTPUT, DOUTPUT], [ODo(cast)])
    else if s == 10 then Op(Correction(cast) + 1, ReduceSum(4), [ODo(cast)], [Correction(cast)])
    else if s == 11 then Op(DpCorrected(cast) + 1, Subtract, [DProbs(cast), Correction(cast)], [DpCorrected(cast)])
    else if s == 12 then Op(DMasked(cast) + 1, Multiply, [Probs(cast), DpCorrected(cast)], [DMasked(cast)])
    else if s == 13 then Op(DScaled(cast) + 1, Divide, [DMasked(cast), SCALE], [DScaled(cast)])
    else if s == 14 then Op(29, TypeCast, [DScaled(cast)], [DScaledCast(cast)])
    else if s == 15 then Op(DQuery(cast) + 1, MatMul(false, false), [DScaledCast(cast), KEY], [DQuery(cast)])
    else if s == 16 then Op(DKey(cast) + 1, MatMul(true, false), [DScaledCast(cast), QUERY], [DKey(cast)])
    else Op(DKeyReduced(cast) + 1, ReduceSum(2), [DKey(cast)], [DKeyReduced(cast)])
  }

  /** The k-th created operation of the graph. */
  function CreatedSlot(cast: bool, k: nat): nat {
    if cast || k < 5 then k else if k < 13 then k + 1 else k + 2
  }

  /** The k-th added operation: the two type casts come last, after the
      operations that consume them. */
  function AddedSlot(k: nat): nat {
    if k < 5 then k
    else if k == 5 then 6
    else if k < 12 then k + 2
    else if k == 12 then 16
    else if k == 13 then 15
    else if k == 14 then 7
    else if k == 15 then 17
    else if k == 16 then 5
    else 14
  }

  function OpCount(cast: bool): nat {
    if cast then 18 else 16
  }

  function CreatedOps(cast: bool): seq<GraphOp> {
    seq(OpCount(cast), k requires 0 <= k < OpCount(cast) => Slot(cast, CreatedSlot(cast, k)))
  }

  function BackwardOps(cast: bool): seq<GraphOp> {
    seq(OpCount(cast), k requires 0 <= k < OpCount(cast) => Slot(cast, AddedSlot(k)))
  }

  /** p is the operation created s-th; without casts the two type casts are
      left unconnected and are not added to the graph. */
  predicate IsSlot(p: GraphOp, cast: bool, s: nat)
    requires s < 18
  {
    (cast || (s != 5 && s != 14)) ==> p == Slot(cast, s)
  }

  /** score to probs: exp(masked_score - stats), and its cast. */
  method CreateProbabilities(cast: bool, id0: nat) returns (id: nat, probs: nat, probsCast: nat, o: seq<GraphOp>)
    requires id0 == Counter(cast, 0)
    ensures id == Counter(cast, 6) && probs == Probs(cast) && probsCast == ProbsCast(cast)
    ensures |o| == 6 && forall s: nat | s < 6 :: IsSlot(o[s], cast, s)
  {
    id := id0;
    var score := id; id := id + 1;
    var bmm1 := Op(id, MatMul(false, true), [QUERY, KEY], [score]); id := id + 1;
    var scaled := id; id := id + 1;
    var scaleDiv := Op(id, Divide, [score, SCALE], [scaled]); id := id + 1;
    var masked := id; id := id + 1;
    var maskAdd := Op(id, Add, [scaled, MASK], [masked]); id := id + 1;
    var subOut := id; id := id + 1;
    var subtract := Op(id, Subtract, [masked, STATS], [subOut]); id := id + 1;
    probs := id; id := id + 1;
    var exp := Op(id, Exp, [subOut], [probs]); id := id + 1;
    probsCast := probs;
    var typecast := Op(id, TypeCast, [], []); id := id + 1;
    if cast {
      probsCast := id; id := id + 1;
      typecast := typecast.(ins := [probs], outs := [probsCast]);
    }
    o := [bmm1, scaleDiv, maskAdd, subtract, exp, typecast];
  }

  /** The value gradient and the decomposed softmax gradient. */
  method CreateGradients(cast: bool, id0: nat, probs: nat, probsCast: nat)
    returns (id: nat, dvalueReduced: nat, dmasked: nat, o: seq<GraphOp>)
    requires id0 == Counter(cast, 6) && probs == Probs(cast) && probsCast == ProbsCast(cast)
    ensures id == Counter(cast, 13) && dvalueReduced == DValueReduced(cast) && dmasked == DMasked(cast)
    ensures |o| == 7 && forall s: nat | s < 7 :: IsSlot(o[s], cast, s + 6)
  {
    id := id0;
    var dvalue := id; id := id + 1;
    var bmmPDo := Op(id, MatMul(true, false), [probsCast, DOUTPUT], [dvalue]); id := id + 1;
    dvalueReduced := id; id := id + 1;
    var reduceDv := Op(id, ReduceSum(2), [dvalue], [dvalueReduced]); id := id + 1;
    var dprobs := id; id := id + 1;
    var bmmDoV := Op(id, MatMul(false, true), [DOUTPUT, VALUE], [dprobs]); id := id + 1;
    var oDo := id; id := id + 1;
    var oDoMul := Op(id, Multiply, [OUTPUT, DOUTPUT], [oDo]); id := id + 1;
    var correctionOut := id; id := id + 1;
    var correction := Op(id, ReduceSum(4), [oDo], [correctionOut]); id := id + 1;
    var dpCorrected := id; id := id + 1;
    var dpCorrectedOp := Op(id, Subtract, [dprobs, correctionOut], [dpCorrected]); id := id + 1;
    dmasked := id; id := id + 1;
    var softmaxBwdMul := Op(id, Multiply, [probs, dpCorrected], [dmasked]); id := id + 1;
    o := [bmmPDo, reduceDv, bmmDoV, oDoMul, correction, dpCorrectedOp, softmaxBwdMul];
  }

  /** The scaled score gradient, its cast, and the query and key gradients. */
  method CreateProducts(cast: bool, id0: nat, dmasked: nat) returns (dquery: nat, dkeyReduced: nat, o: seq<GraphOp>)
    requires id0 == Counter(cast, 13) && dmasked == DMasked(cast)
    ensures dquery == DQuery(cast) && dkeyReduced == DKeyReduced(cast)
    ensures |o| == 5 && forall s: nat | s < 5 :: IsSlot(o[s], cast, s + 13)
  {
    var id := id0;
    var dscaled := id; id := id + 1;
    var scaleDiv2 := Op(id, Divide, [dmasked, SCALE], [dscaled]); id := id + 1;
    var dscaledCast := dscaled;
    var typecast2 := Op(id, TypeCast, [], []); id := id + 1;
    if cast {
      dscaledCast := id; id := id + 1;
      typecast2 := typecast2.(ins := [dscaled], outs := [dscaledCast]);
    }
    dquery := id; id := id + 1;
    var bmmDq := Op(id, MatMul(false, false), [dscaledCast, KEY], [dquery]); id := id + 1;
    var dkey := id; id := id + 1;
    var bmmDk := Op(id, MatMul(true, false), [dscaledCast, QUERY], [dkey]); id := id + 1;
    dkeyReduced := id; id := id + 1;
    var reduceDk := Op(id, ReduceSum(2), [dkey], [dkeyReduced]); id := id + 1;
    o := [scaleDiv2, typecast2, bmmDq, bmmDk, reduceDk];
  }

  /** Builds the backward graph: creates its operations, numbering tensors and
      operations from one counter, then adds them to the graph. */
  method BuildBackward(cast: bool) returns (ops: seq<GraphOp>, dquery: nat, dkey: nat, dvalue: nat)
    ensures ops == BackwardOps(cast)
    ensures dquery == DQuery(cast) && dkey == DKeyReduced(cast) && dvalue == DValueReduced(cast)
  {
    hide Slot, BackwardOps, IsSlot;
    var id, probs, probsCast, p := CreateProbabilities(cast, 1);
    var dmasked, g, o;
    id, dvalue, dmasked, g := CreateGradients(cast, id, probs, probsCast);
    dquery, dkey, o := CreateProducts(cast, id, dmasked);
    ops := [p[0], p[1], p[2], p[3], p[4], g[0], g[2], g[3], g[4], g[5], g[6], o[0], o[3], o[2], g[1], o[4]];
    if cast {
      ops := ops + [p[5]];
      ops := ops + [o[1]];
    }
    assert cast ==> [p[5], o[1]] == [p[5]] + [o[1]];
    AddedInOrder(cast, p, g, o, ops);
  }

  lemma AddedInOrder(cast: bool, p: seq<GraphOp>, g: seq<GraphOp>, o: seq<GraphOp>, ops: seq<GraphOp>)
    requires |p| == 6 && forall s: nat | s < 6 :: IsSlot(p[s], cast, s)
    requires |g| == 7 && forall s: nat | s < 7 :: IsSlot(g[s], cast, s + 6)
    requires |o| == 5 && forall s: nat | s < 5 :: IsSlot(o[s], cast, s + 13)
    requires ops == [p[0], p[1], p[2], p[3], p[4], g[0], g[2], g[3], g[4], g[5], g[6], o[0], o[3], o[2], g[1], o[4]]
                    + if cast then [p[5], o[1]] else []
    ensures ops == BackwardOps(cast)
  {
    hide Slot;
    forall k: nat | k < OpCount(cast)
      ensures ops[k] == Slot(cast, AddedSlot(k))
    {
    }
  }

  /** The counter when operation s is created. */
  function Counter(cast: bool, s: nat): nat {
    if s <= 5 then 2 * s + 1
    else if s <= 13 then DValue(cast) + 2 * (s - 6)
    else if s == 14 then DScaled(cast) + 2
    else DQuery(cast) + 2 * (s - 15)
  }

  lemma SlotIsNumbered(cast: bool, s: nat)
    requires Present(cast, s)
    ensures Within(Slot(cast, s), Counter(cast, s), Counter(cast, s + 1))
    ensures Distinct(Slot(cast, s).outs) && forall t | t in Slot(cast, s).outs :: t !in BACKWARD_INPUTS
  {
  }

  /** The slot that produces an input which is not external. */
  function Source(cast: bool, s: nat, t: nat): nat {
    if s <= 5 then s - (if s == 0 then 0 else 1)
    else if s == 6 then (if cast then 5 else 4)
    else if s == 11 then (if t == DProbs(cast) then 8 else 10)
    else if s == 12 then (if t == Probs(cast) then 4 else 11)
    else if s == 15 || s == 16 then (if cast then 14 else 13)
    else s - 1
  }

  lemma SourceProduces(cast: bool, s: nat, t: nat)
    requires Present(cast, s)
    requires t in Slot(cast, s).ins && t !in BACKWARD_INPUTS
    ensures var p := Source(cast, s, t); p < s && Present(cast, p) && t in Slot(cast, p).outs
  {
  }

  /** Where slot s stands in creation order. */
  function CreatedIndex(cast: bool, s: nat): nat {
    if cast || s < 5 then s else if s < 14 then s - 1 else s - (if s == 14 then 1 else 2)
  }

  /** Where slot s stands in the order of addition. */
  function AddedIndex(s: nat): nat {
    if s < 5 then s
    else if s == 5 then 16
    else if s == 6 then 5
    else if s == 7 then 14
    else if s < 14 then s - 2
    else if s == 14 then 17
    else if s == 15 then 13
    else if s == 16 then 12
    else 15
  }

  predicate Present(cast: bool, s: nat) {
    s < 18 && (cast || (s != 5 && s != 14))
  }

  lemma CreatedSlots(cast: bool, k: nat, s: nat)
    ensures k < OpCount(cast) ==> Present(cast, CreatedSlot(cast, k)) && CreatedIndex(cast, CreatedSlot(cast, k)) == k
    ensures Present(cast, s) ==> CreatedIndex(cast, s) < OpCount(cast) && CreatedSlot(cast, CreatedIndex(cast, s)) == s
  {
  }

  lemma AddedSlots(cast: bool, k: nat, s: nat)
    ensures k < OpCount(cast) ==> Present(cast, AddedSlot(k)) && AddedIndex(AddedSlot(k)) == k
    ensures Present(cast, s) ==> AddedIndex(s) < OpCount(cast) && AddedSlot(AddedIndex(s)) == s
  {
  }

  lemma SlotIsCreated(cast: bool, s: nat)
    requires Present(cast, s)
    ensures CreatedIndex(cast, s) < OpCount(cast)
    ensures CreatedOps(cast)[CreatedIndex(cast, s)] == Slot(cast, s)
    ensures Slot(cast, s) in CreatedOps(cast) && Slot(cast, s) in BackwardOps(cast)
  {
    CreatedSlots(cast, 0, s);
    AddedSlots(cast, 0, s);
    assert BackwardOps(cast)[AddedIndex(s)] == Slot(cast, s);
  }

  /** The order of addition holds the operations created, each once. */
  lemma AddedOpsAreCreatedOps(cast: bool)
    ensures SameOps(CreatedOps(cast), BackwardOps(cast))
  {
    forall p
      ensures p in CreatedOps(cast) <==> p in BackwardOps(cast)
    {
      if p in CreatedOps(cast) {
        var k: nat :| k < OpCount(cast) && p == Slot(cast, CreatedSlot(cast, k));
        CreatedSlots(cast, k, 0);
        SlotIsCreated(cast, CreatedSlot(cast, k));
      }
      if p in BackwardOps(cast) {
        var k: nat :| k < OpCount(cast) && p == Slot(cast, AddedSlot(k));
        AddedSlots(cast, k, 0);
        SlotIsCreated(cast, AddedSlot(k));
      }
    }
  }

  lemma DistinctSlots(cast: bool, s: nat, s': nat)
    requires Present(cast, s) && Present(cast, s') && s != s'
    ensures Slot(cast, s).id != Slot(cast, s').id
  {
    SlotIsNumbered(cast, s);
    SlotIsNumbered(cast, s');
    CounterAscendsBySlot(cast, s, s');
    CounterAscendsBySlot(cast, s', s);
  }

  lemma CounterAscendsBySlot(cast: bool, s: nat, s': nat)
    requires s <= 18 && s' <= 18
    ensures s < s' ==> Counter(cast, s + 1) <= Counter(cast, s')
  {
  }

  /** In creation order the backward graph is valid; in particular its counter
      never reuses the identifiers of the forward output and stats. */
  lemma CreatedGraphIsValid(cast: bool)
    ensures ValidGraph(CreatedOps(cast), BACKWARD_INPUTS)
    ensures Runnable(CreatedOps(cast), BACKWARD_INPUTS)
  {
    var ops, n := CreatedOps(cast), OpCount(cast);
    var counter := seq(n + 1, k requires 0 <= k <= n => Counter(cast, CreatedSlot(cast, k)));
    forall k: nat | k < n
      ensures Within(ops[k], counter[k], counter[k + 1])
      ensures Distinct(ops[k].outs) && forall t | t in ops[k].outs :: t !in BACKWARD_INPUTS
      ensures InputsPrecede(ops, BACKWARD_INPUTS, k)
    {
      var s := CreatedSlot(cast, k);
      CreatedSlots(cast, k, 0);
      SlotIsNumbered(cast, s);
      CounterAscendsBySlot(cast, s, CreatedSlot(cast, k + 1));
      InputsOfSlotPrecede(cast, k);
    }
    CounterGivesValidGraph(ops, BACKWARD_INPUTS, counter);
    PrecedingInputsRun(ops, BACKWARD_INPUTS, n);
    assert ops[..n] == ops;
  }

  lemma InputsOfSlotPrecede(cast: bool, k: nat)
    requires k < OpCount(cast)
    ensures InputsPrecede(CreatedOps(cast), BACKWARD_INPUTS, k)
  {
    var ops, s := CreatedOps(cast), CreatedSlot(cast, k);
    CreatedSlots(cast, k, 0);
    forall t | t in ops[k].ins && t !in BACKWARD_INPUTS
      ensures exists j :: 0 <= j < k && t in ops[j].outs
    {
      SourceProduces(cast, s, t);
      var p := Source(cast, s, t);
      SlotIsCreated(cast, p);
      assert t in ops[CreatedIndex(cast, p)].outs;
    }
  }

  /** The backward graph as added is valid, and creation order is a schedule of it. */
  lemma BackwardGraphIsValid(cast: bool)
    ensures ValidGraph(BackwardOps(cast), BACKWARD_INPUTS)
    ensures Schedule(CreatedOps(cast), BackwardOps(cast), BACKWARD_INPUTS)
  {
    CreatedGraphIsValid(cast);
    AddedOpsAreCreatedOps(cast);
    var ops := BackwardOps(cast);
    forall k: nat, l: nat | k < l < OpCount(cast)
      ensures ops[k].id != ops[l].id
    {
      AddedSlots(cast, k, 0);
      AddedSlots(cast, l, 0);
      DistinctSlots(cast, AddedSlot(k), AddedSlot(l));
    }
    ReorderedGraphIsValid(ops, CreatedOps(cast), BACKWARD_INPUTS);
  }

  /** With type casts, the order of addition is not an order of execution. */
  lemma AddOrderIsNotASchedule()
    ensures !Runnable(BackwardOps(true), BACKWARD_INPUTS)
  {
    var ops, t := BackwardOps(true), ProbsCast(true);
    PrefixRunnable(ops, BACKWARD_INPUTS, 6);
    assert ops[..6][..5] == ops[..5];
    assert ops[..6][5] == Slot(true, 6) && t in Slot(true, 6).ins;
    OutputOfSome(ops[..5], t);
    forall k | 0 <= k < 5
      ensures t !in ops[..5][k].outs
    {
      assert ops[..5][k] == Slot(true, k);
      SlotIsNumbered(true, k);
    }
  }

  lemma {:induction false} PrefixRunnable(ops: seq<GraphOp>, have: set<nat>, n: nat)
    requires n <= |ops|
    ensures Runnable(ops, have) ==> Runnable(ops[..n], have)
    decreases |ops|
  {
    if n < |ops| {
      PrefixRunnable(ops[..|ops| - 1], have, n);
      assert ops[..|ops| - 1][..n] == ops[..n];
    } else {
      assert ops[..n] == ops;
    }
  }
}
