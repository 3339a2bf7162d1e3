/** The training net: convolution, ReLU, LRN and pooling with their backward
    primitives, and reorders wherever a primitive prefers another layout. */
module CnnTraining {
  import opened Common
  import opened Layouts
  import opened Nets

  // The memories

  const USER_SRC := 0
  const USER_WEI := 1
  const USER_BIAS := 2
  const USER_DST := 3
  const USER_DIFF_DST := 4
  const USER_DIFF_WEI := 5
  const DIFF_BIAS := 6
  const CONV_DST := 7
  const RELU_DST := 8
  const LRN_DST := 9
  const LRN_WS := 10
  const POOL_WS := 11
  const POOL_DIFF_SRC := 12
  const LRN_DIFF_SRC := 13
  const RELU_DIFF_SRC := 14
  const CONV_INTERNAL_SRC := 15
  const CONV_INTERNAL_WEI := 16
  const POOL_INTERNAL_DST := 17
  const POOL_INTERNAL_DIFF_DST := 18
  const CONV_BWD_INTERNAL_SRC := 19
  const CONV_INTERNAL_DIFF_DST := 20
  const CONV_INTERNAL_DIFF_WEI := 21

  /** The user's layouts and those the primitives prefer. */
  datatype Choices = Choices(userSrc: Layout, userWei: Layout, bias: Layout, userDst: Layout, userDiffDst: Layout,
                             userDiffWei: Layout, diffBias: Layout, src: Layout, wei: Layout, dst: Layout, lrnWs: Layout,
                             poolDst: Layout, poolWs: Layout, bwdSrc: Layout, bwdDiffDst: Layout, bwdDiffWei: Layout)

  predicate SameTensor(a: Layout, b: Layout) {
    |a.offsets| == |b.offsets|
  }

  ghost predicate AreChoices(c: Choices) {
    && IsLayout(c.userSrc) && IsLayout(c.userWei) && IsLayout(c.bias) && IsLayout(c.userDst) && IsLayout(c.userDiffDst)
    && IsLayout(c.userDiffWei) && IsLayout(c.diffBias) && IsLayout(c.src) && IsLayout(c.wei) && IsLayout(c.dst)
    && IsLayout(c.lrnWs) && IsLayout(c.poolDst) && IsLayout(c.poolWs) && IsLayout(c.bwdSrc) && IsLayout(c.bwdDiffDst)
    && IsLayout(c.bwdDiffWei)
    && SameTensor(c.userSrc, c.src) && SameTensor(c.userWei, c.wei) && SameTensor(c.userDst, c.poolDst)
    && SameTensor(c.userDiffDst, c.poolDst) && SameTensor(c.src, c.bwdSrc) && SameTensor(c.dst, c.bwdDiffDst)
    && SameTensor(c.userDiffWei, c.bwdDiffWei) && SameTensor(c.userDiffWei, c.userWei) && SameTensor(c.diffBias, c.bias)
  }

  type Kernel = seq<Tensor> -> seq<Tensor>

  datatype Kernels = Kernels(conv: Kernel, relu: Kernel, lrn: Kernel, pool: Kernel,
                             poolBwd: Kernel, lrnBwd: Kernel, reluBwd: Kernel, convBwd: Kernel)

  // The primitives

  function Conv(c: Choices, k: Kernels): Primitive {
    Primitive([c.src, c.wei, c.bias], [c.dst], k.conv)
  }

  function Relu(c: Choices, k: Kernels): Primitive {
    Primitive([c.dst], [c.dst], k.relu)
  }

  function Lrn(c: Choices, k: Kernels): Primitive {
    Primitive([c.dst], [c.dst, c.lrnWs], k.lrn)
  }

  function Pool(c: Choices, k: Kernels): Primitive {
    Primitive([c.dst], [c.poolDst, c.poolWs], k.pool)
  }

  function PoolBwd(c: Choices, k: Kernels): Primitive {
    Primitive([c.poolDst, c.poolWs], [c.dst], k.poolBwd)
  }

  function LrnBwd(c: Choices, k: Kernels): Primitive {
    Primitive([c.dst, c.dst, c.lrnWs], [c.dst], k.lrnBwd)
  }

  function ReluBwd(c: Choices, k: Kernels): Primitive {
    Primitive([c.dst, c.dst], [c.dst], k.reluBwd)
  }

  function ConvBwd(c: Choices, k: Kernels): Primitive {
    Primitive([c.bwdSrc, c.bwdDiffDst], [c.bwdDiffWei, c.diffBias], k.convBwd)
  }

  /** Every kernel gives tensors of the sizes its primitive's layouts have. */
  ghost predicate AreKernels(c: Choices, k: Kernels) {
    && IsPrimitive(Conv(c, k)) && IsPrimitive(Relu(c, k)) && IsPrimitive(Lrn(c, k)) && IsPrimitive(Pool(c, k))
    && IsPrimitive(PoolBwd(c, k)) && IsPrimitive(LrnBwd(c, k)) && IsPrimitive(ReluBwd(c, k)) && IsPrimitive(ConvBwd(c, k))
  }

  // Reorders

  function Copy(n: nat): Kernel {
    xs => if |xs| == 1 && |xs[0]| == n then xs else [seq(n, _ => 0.0)]
  }

  function Reorder(from: Layout, to: Layout): Primitive {
    Primitive([from], [to], Copy(|to.offsets|))
  }

  /** The reorder between a memory and the layout wanted of it, if they differ. */
  function MaybeReorder(user: Handle, ul: Layout, pl: Layout, internal: Handle, toPrim: bool): seq<Step> {
    if ul == pl then []
    else if toPrim then [Step(Reorder(ul, pl), [user], [internal])]
    else [Step(Reorder(pl, ul), [internal], [user])]
  }

  function Chosen(user: Handle, ul: Layout, pl: Layout, internal: Handle): Handle {
    if ul == pl then user else internal
  }

  function SrcHandle(c: Choices): Handle {
    Chosen(USER_SRC, c.userSrc, c.src, CONV_INTERNAL_SRC)
  }

  function WeiHandle(c: Choices): Handle {
    Chosen(USER_WEI, c.userWei, c.wei, CONV_INTERNAL_WEI)
  }

  function DstHandle(c: Choices): Handle {
    Chosen(USER_DST, c.userDst, c.poolDst, POOL_INTERNAL_DST)
  }

  function DiffDstHandle(c: Choices): Handle {
    Chosen(USER_DIFF_DST, c.userDiffDst, c.poolDst, POOL_INTERNAL_DIFF_DST)
  }

  function BwdSrcHandle(c: Choices): Handle {
    Chosen(SrcHandle(c), c.src, c.bwdSrc, CONV_BWD_INTERNAL_SRC)
  }

  function BwdDiffDstHandle(c: Choices): Handle {
    Chosen(RELU_DIFF_SRC, c.dst, c.bwdDiffDst, CONV_INTERNAL_DIFF_DST)
  }

  function DiffWeiHandle(c: Choices): Handle {
    Chosen(USER_DIFF_WEI, c.userDiffWei, c.bwdDiffWei, CONV_INTERNAL_DIFF_WEI)
  }

  // The nets

  function ConvStep(c: Choices, k: Kernels): Step {
    Step(Conv(c, k), [SrcHandle(c), WeiHandle(c), USER_BIAS], [CONV_DST])
  }

  function ReluStep(c: Choices, k: Kernels): Step {
    Step(Relu(c, k), [CONV_DST], [RELU_DST])
  }

  function LrnStep(c: Choices, k: Kernels): Step {
    Step(Lrn(c, k), [RELU_DST], [LRN_DST, LRN_WS])
  }

  function PoolStep(c: Choices, k: Kernels): Step {
    Step(Pool(c, k), [LRN_DST], [DstHandle(c), POOL_WS])
  }

  function ForwardNet(c: Choices, k: Kernels): seq<Step> {
    MaybeReorder(USER_SRC, c.userSrc, c.src, CONV_INTERNAL_SRC, true)
    + MaybeReorder(USER_WEI, c.userWei, c.wei, CONV_INTERNAL_WEI, true)
    + [ConvStep(c, k), ReluStep(c, k), LrnStep(c, k), PoolStep(c, k)]
    + MaybeReorder(USER_DST, c.userDst, c.poolDst, POOL_INTERNAL_DST, false)
  }

  function PoolBwdStep(c: Choices, k: Kernels): Step {
    Step(PoolBwd(c, k), [DiffDstHandle(c), POOL_WS], [POOL_DIFF_SRC])
  }

  function LrnBwdStep(c: Choices, k: Kernels): Step {
    Step(LrnBwd(c, k), [RELU_DST, POOL_DIFF_SRC, LRN_WS], [LRN_DIFF_SRC])
  }

  function ReluBwdStep(c: Choices, k: Kernels): Step {
    Step(ReluBwd(c, k), [CONV_DST, LRN_DIFF_SRC], [RELU_DIFF_SRC])
  }

  function ConvBwdStep(c: Choices, k: Kernels): Step {
    Step(ConvBwd(c, k), [BwdSrcHandle(c), BwdDiffDstHandle(c)], [DiffWeiHandle(c), DIFF_BIAS])
  }

  function BackwardNet(c: Choices, k: Kernels): seq<Step> {
    MaybeReorder(USER_DIFF_DST, c.userDiffDst, c.poolDst, POOL_INTERNAL_DIFF_DST, true)
    + [PoolBwdStep(c, k), LrnBwdStep(c, k), ReluBwdStep(c, k)]
    + MaybeReorder(SrcHandle(c), c.src, c.bwdSrc, CONV_BWD_INTERNAL_SRC, true)
    + MaybeReorder(RELU_DIFF_SRC, c.dst, c.bwdDiffDst, CONV_INTERNAL_DIFF_DST, true)
    + [ConvBwdStep(c, k)]
    + MaybeReorder(USER_DIFF_WEI, c.userDiffWei, c.bwdDiffWei, CONV_INTERNAL_DIFF_WEI, false)
  }

  // The reference, without layouts

  /** What the forward pass leaves: its output and what the backward pass needs. */
  datatype Activations = Activations(conv: Tensor, relu: Tensor, lrnWs: Tensor, poolWs: Tensor, out: Tensor)

  /** The i-th tensor a kernel gives. */
  function Nth(f: Kernel, xs: seq<Tensor>, i: nat): Tensor {
    if i < |f(xs)| then f(xs)[i] else []
  }

  function Forward(k: Kernels, src: Tensor, wei: Tensor, bias: Tensor): Activations {
    var conv := Nth(k.conv, [src, wei, bias], 0);
    var relu := Nth(k.relu, [conv], 0);
    var lrn := Nth(k.lrn, [relu], 0);
    Activations(conv, relu, Nth(k.lrn, [relu], 1), Nth(k.pool, [lrn], 1), Nth(k.pool, [lrn], 0))
  }

  /** The gradient that reaches the convolution. */
  function ConvGradient(k: Kernels, a: Activations, diffDst: Tensor): Tensor {
    var poolDiff := Nth(k.poolBwd, [diffDst, a.poolWs], 0);
    var lrnDiff := Nth(k.lrnBwd, [a.relu, poolDiff, a.lrnWs], 0);
    Nth(k.reluBwd, [a.conv, lrnDiff], 0)
  }

  /** The gradients of the weights and of the bias. */
  function WeightGradient(k: Kernels, src: Tensor, a: Activations, diffDst: Tensor): Tensor {
    Nth(k.convBwd, [src, ConvGradient(k, a, diffDst)], 0)
  }

  function BiasGradient(k: Kernels, src: Tensor, a: Activations, diffDst: Tensor): Tensor {
    Nth(k.convBwd, [src, ConvGradient(k, a, diffDst)], 1)
  }

  // The heap

  ghost predicate Fits(h: Heap, k: Handle, l: Layout) {
    k in h && h[k].layout == l
  }

  /** All memories exist with their descriptors; an internal memory exists where
      layouts differ. */
  ghost predicate Ready(h: Heap, c: Choices) {
    && IsHeap(h)
    && Fits(h, USER_SRC, c.userSrc) && Fits(h, USER_WEI, c.userWei) && Fits(h, USER_BIAS, c.bias) && Fits(h, USER_DST, c.userDst)
    && Fits(h, USER_DIFF_DST, c.userDiffDst) && Fits(h, USER_DIFF_WEI, c.userDiffWei) && Fits(h, DIFF_BIAS, c.diffBias)
    && Fits(h, CONV_DST, c.dst) && Fits(h, RELU_DST, c.dst) && Fits(h, LRN_DST, c.dst) && Fits(h, LRN_WS, c.lrnWs)
    && Fits(h, POOL_WS, c.poolWs) && Fits(h, POOL_DIFF_SRC, c.dst) && Fits(h, LRN_DIFF_SRC, c.dst) && Fits(h, RELU_DIFF_SRC, c.dst)
    && Fits(h, SrcHandle(c), c.src) && Fits(h, WeiHandle(c), c.wei) && Fits(h, DstHandle(c), c.poolDst)
    && Fits(h, DiffDstHandle(c), c.poolDst) && Fits(h, BwdSrcHandle(c), c.bwdSrc) && Fits(h, BwdDiffDstHandle(c), c.bwdDiffDst)
    && Fits(h, DiffWeiHandle(c), c.bwdDiffWei)
  }

  lemma ReadyStays(h: Heap, g: Heap, c: Choices, changed: seq<Handle>)
    requires Ready(h, c) && Keeps(h, g, changed) && IsHeap(g)
    ensures Ready(g, c)
  {
  }

  lemma HoldsStays(h: Heap, g: Heap, changed: seq<Handle>, k: Handle, l: Layout, t: Tensor)
    requires Holds(h, k, l, t) && Keeps(h, g, changed) && k !in changed
    ensures Holds(g, k, l, t)
  {
  }

  // Running the pieces

  lemma ReorderIsPrimitive(a: Layout, b: Layout)
    requires IsLayout(b)
    ensures IsPrimitive(Reorder(a, b))
  {
  }

  lemma RunOne(s: Step, h: Heap)
    requires IsHeap(h)
    ensures Run([s], h) == Execute(s, h)
  {
    assert [s][..0] == [];
  }

  /** After the reorder, if any, the chosen memory holds the tensor in the layout wanted. */
  lemma {:induction false} ReorderedIn(h: Heap, user: Handle, ul: Layout, pl: Layout, internal: Handle, t: Tensor) returns (g: Heap)
    requires IsHeap(h) && IsLayout(pl) && SameTensor(ul, pl) && Holds(h, user, ul, t)
    requires ul != pl ==> Fits(h, internal, pl)
    ensures Run(MaybeReorder(user, ul, pl, internal, true), h) == Some(g) && IsHeap(g)
    ensures Holds(g, Chosen(user, ul, pl, internal), pl, t) && Keeps(h, g, [internal])
  {
    g := h;
    if ul != pl {
      var s := Step(Reorder(ul, pl), [user], [internal]);
      ReorderIsPrimitive(ul, pl);
      g := ExecuteComputes(s, h, [t]);
      RunOne(s, h);
      HeldLength(h, user, ul, t);
      assert Holds(g, s.outs[0], s.prim.outs[0], s.prim.compute([t])[0]);
    }
  }

  lemma HeldLength(h: Heap, k: Handle, l: Layout, t: Tensor)
    requires Holds(h, k, l, t)
    ensures |t| == |l.offsets|
  {
  }

  /** After the reorder, if any, the user's memory holds what the chosen one held. */
  lemma {:induction false} ReorderedOut(h: Heap, user: Handle, ul: Layout, pl: Layout, internal: Handle, t: Tensor) returns (g: Heap)
    requires IsHeap(h) && IsLayout(ul) && SameTensor(ul, pl) && Fits(h, user, ul)
    requires Holds(h, Chosen(user, ul, pl, internal), pl, t)
    ensures Run(MaybeReorder(user, ul, pl, internal, false), h) == Some(g) && IsHeap(g)
    ensures Holds(g, user, ul, t) && Keeps(h, g, [user])
  {
    g := h;
    if ul != pl {
      var s := Step(Reorder(pl, ul), [internal], [user]);
      ReorderIsPrimitive(pl, ul);
      g := ExecuteComputes(s, h, [t]);
      RunOne(s, h);
      HeldLength(h, internal, pl, t);
      assert Holds(g, s.outs[0], s.prim.outs[0], s.prim.compute([t])[0]);
    }
  }

  ghost predicate InputsHold(s: Step, h: Heap, xs: seq<Tensor>) {
    |xs| == |s.ins| == |s.prim.ins| && forall k | 0 <= k < |s.ins| :: Holds(h, s.ins[k], s.prim.ins[k], xs[k])
  }

  lemma {:induction false} WritesOne(s: Step, h: Heap, xs: seq<Tensor>) returns (g: Heap)
    requires IsHeap(h) && IsPrimitive(s.prim) && InputsHold(s, h, xs)
    requires |s.outs| == |s.prim.outs| == 1 && Fits(h, s.outs[0], s.prim.outs[0])
    ensures Execute(s, h) == Some(g) && IsHeap(g) && Keeps(h, g, s.outs)
    ensures Holds(g, s.outs[0], s.prim.outs[0], Nth(s.prim.compute, xs, 0))
  {
    hide Execute, Holds, IsHeap, Keeps;
    g := ExecuteComputes(s, h, xs);
  }

  lemma {:induction false} WritesTwo(s: Step, h: Heap, xs: seq<Tensor>) returns (g: Heap)
    requires IsHeap(h) && IsPrimitive(s.prim) && InputsHold(s, h, xs)
    requires |s.outs| == |s.prim.outs| == 2 && s.outs[0] != s.outs[1]
    requires Fits(h, s.outs[0], s.prim.outs[0]) && Fits(h, s.outs[1], s.prim.outs[1])
    ensures Execute(s, h) == Some(g) && IsHeap(g) && Keeps(h, g, s.outs)
    ensures Holds(g, s.outs[0], s.prim.outs[0], Nth(s.prim.compute, xs, 0))
    ensures Holds(g, s.outs[1], s.prim.outs[1], Nth(s.prim.compute, xs, 1))
  {
    hide Execute, Holds, IsHeap, Keeps;
    g := ExecuteComputes(s, h, xs);
  }

  lemma {:induction false} RunFirst(s: Step, rest: seq<Step>, h: Heap, g: Heap)
    requires IsHeap(h) && Execute(s, h) == Some(g)
    ensures Run([s] + rest, h) == Run(rest, g)
  {
    hide Execute;
    RunOne(s, h);
    RunOfSum([s], rest, h);
  }

  // The layers

  lemma {:induction false} ConvRuns(c: Choices, k: Kernels, h: Heap, src: Tensor, wei: Tensor, bias: Tensor) returns (g: Heap)
    requires AreKernels(c, k) && Ready(h, c)
    requires Holds(h, SrcHandle(c), c.src, src) && Holds(h, WeiHandle(c), c.wei, wei) && Holds(h, USER_BIAS, c.bias, bias)
    ensures Execute(ConvStep(c, k), h) == Some(g) && Ready(g, c) && Keeps(h, g, [CONV_DST])
    ensures Holds(g, CONV_DST, c.dst, Nth(k.conv, [src, wei, bias], 0))
  {
    hide Execute, Holds, Keeps, IsPrimitive;
    g := WritesOne(ConvStep(c, k), h, [src, wei, bias]);
    ReadyStays(h, g, c, [CONV_DST]);
  }

  lemma {:induction false} ReluRuns(c: Choices, k: Kernels, h: Heap, x: Tensor) returns (g: Heap)
    requires AreKernels(c, k) && Ready(h, c) && Holds(h, CONV_DST, c.dst, x)
    ensures Execute(ReluStep(c, k), h) == Some(g) && Ready(g, c) && Keeps(h, g, [RELU_DST])
    ensures Holds(g, RELU_DST, c.dst, Nth(k.relu, [x], 0))
  {
    hide Execute, Holds, Keeps, IsPrimitive;
    g := WritesOne(ReluStep(c, k), h, [x]);
    ReadyStays(h, g, c, [RELU_DST]);
  }

  lemma {:induction false} LrnRuns(c: Choices, k: Kernels, h: Heap, x: Tensor) returns (g: Heap)
    requires AreKernels(c, k) && Ready(h, c) && Holds(h, RELU_DST, c.dst, x)
    ensures Execute(LrnStep(c, k), h) == Some(g) && Ready(g, c) && Keeps(h, g, [LRN_DST, LRN_WS])
    ensures Holds(g, LRN_DST, c.dst, Nth(k.lrn, [x], 0)) && Holds(g, LRN_WS, c.lrnWs, Nth(k.lrn, [x], 1))
  {
    hide Execute, Holds, Keeps, IsPrimitive;
    g := WritesTwo(LrnStep(c, k), h, [x]);
    ReadyStays(h, g, c, [LRN_DST, LRN_WS]);
  }

  lemma {:induction false} PoolRuns(c: Choices, k: Kernels, h: Heap, x: Tensor) returns (g: Heap)
    requires AreKernels(c, k) && Ready(h, c) && Holds(h, LRN_DST, c.dst, x)
    ensures Execute(PoolStep(c, k), h) == Some(g) && Ready(g, c) && Keeps(h, g, [DstHandle(c), POOL_WS])
    ensures Holds(g, DstHandle(c), c.poolDst, Nth(k.pool, [x], 0)) && Holds(g, POOL_WS, c.poolWs, Nth(k.pool, [x], 1))
  {
    hide Execute, Holds, Keeps, IsPrimitive;
    g := WritesTwo(PoolStep(c, k), h, [x]);
    ReadyStays(h, g, c, [DstHandle(c), POOL_WS]);
  }

  lemma {:induction false} PoolBwdRuns(c: Choices, k: Kernels, h: Heap, x: Tensor, ws: Tensor) returns (g: Heap)
    requires AreKernels(c, k) && Ready(h, c) && Holds(h, DiffDstHandle(c), c.poolDst, x) && Holds(h, POOL_WS, c.poolWs, ws)
    ensures Execute(PoolBwdStep(c, k), h) == Some(g) && Ready(g, c) && Keeps(h, g, [POOL_DIFF_SRC])
    ensures Holds(g, POOL_DIFF_SRC, c.dst, Nth(k.poolBwd, [x, ws], 0))
  {
    hide Execute, Holds, Keeps, IsPrimitive;
    g := WritesOne(PoolBwdStep(c, k), h, [x, ws]);
    ReadyStays(h, g, c, [POOL_DIFF_SRC]);
  }

  lemma {:induction false} LrnBwdRuns(c: Choices, k: Kernels, h: Heap, x: Tensor, d: Tensor, ws: Tensor) returns (g: Heap)
    requires AreKernels(c, k) && Ready(h, c)
    requires Holds(h, RELU_DST, c.dst, x) && Holds(h, POOL_DIFF_SRC, c.dst, d) && Holds(h, LRN_WS, c.lrnWs, ws)
    ensures Execute(LrnBwdStep(c, k), h) == Some(g) && Ready(g, c) && Keeps(h, g, [LRN_DIFF_SRC])
    ensures Holds(g, LRN_DIFF_SRC, c.dst, Nth(k.lrnBwd, [x, d, ws], 0))
  {
    hide Execute, Holds, Keeps, IsPrimitive;
    g := WritesOne(LrnBwdStep(c, k), h, [x, d, ws]);
    ReadyStays(h, g, c, [LRN_DIFF_SRC]);
  }

  lemma {:induction false} ReluBwdRuns(c: Choices, k: Kernels, h: Heap, x: Tensor, d: Tensor) returns (g: Heap)
    requires AreKernels(c, k) && Ready(h, c) && Holds(h, CONV_DST, c.dst, x) && Holds(h, LRN_DIFF_SRC, c.dst, d)
    ensures Execute(ReluBwdStep(c, k), h) == Some(g) && Ready(g, c) && Keeps(h, g, [RELU_DIFF_SRC])
    ensures Holds(g, RELU_DIFF_SRC, c.dst, Nth(k.reluBwd, [x, d], 0))
  {
    hide Execute, Holds, Keeps, IsPrimitive;
    g := WritesOne(ReluBwdStep(c, k), h, [x, d]);
    ReadyStays(h, g, c, [RELU_DIFF_SRC]);
  }

  lemma {:induction false} ConvBwdRuns(c: Choices, k: Kernels, h: Heap, x: Tensor, d: Tensor) returns (g: Heap)
    requires AreKernels(c, k) && Ready(h, c)
    requires Holds(h, BwdSrcHandle(c), c.bwdSrc, x) && Holds(h, BwdDiffDstHandle(c), c.bwdDiffDst, d)
    ensures Execute(ConvBwdStep(c, k), h) == Some(g) && Ready(g, c) && Keeps(h, g, [DiffWeiHandle(c), DIFF_BIAS])
    ensures Holds(g, DiffWeiHandle(c), c.bwdDiffWei, Nth(k.convBwd, [x, d], 0)) && Holds(g, DIFF_BIAS, c.diffBias, Nth(k.convBwd, [x, d], 1))
  {
    hide Execute, Holds, Keeps, IsPrimitive;
    g := WritesTwo(ConvBwdStep(c, k), h, [x, d]);
    ReadyStays(h, g, c, [DiffWeiHandle(c), DIFF_BIAS]);
  }

  // The forward pass

  /** What the backward pass needs of the forward pass. */
  ghost predicate Forwarded(h: Heap, c: Choices, a: Activations) {
    && Holds(h, CONV_DST, c.dst, a.conv) && Holds(h, RELU_DST, c.dst, a.relu)
    && Holds(h, LRN_WS, c.lrnWs, a.lrnWs) && Holds(h, POOL_WS, c.poolWs, a.poolWs)
  }

  lemma {:induction false} ForwardLayers(c: Choices, k: Kernels, h: Heap, src: Tensor, wei: Tensor, bias: Tensor) returns (g: Heap)
    requires AreKernels(c, k) && Ready(h, c)
    requires Holds(h, SrcHandle(c), c.src, src) && Holds(h, WeiHandle(c), c.wei, wei) && Holds(h, USER_BIAS, c.bias, bias)
    ensures Run([ConvStep(c, k), ReluStep(c, k), LrnStep(c, k), PoolStep(c, k)], h) == Some(g) && Ready(g, c)
    ensures Forwarded(g, c, Forward(k, src, wei, bias)) && Holds(g, DstHandle(c), c.poolDst, Forward(k, src, wei, bias).out)
    ensures Keeps(h, g, [CONV_DST] + [RELU_DST] + [LRN_DST, LRN_WS] + [DstHandle(c), POOL_WS])
  {
    hide Execute, Run, Holds, Keeps, AreKernels, Ready, ConvStep, ReluStep, LrnStep, PoolStep;
    ReadyIsHeap(c);
    var a := Forward(k, src, wei, bias);
    var h1 := ConvRuns(c, k, h, src, wei, bias);
    var h2 := ReluRuns(c, k, h1, a.conv);
    var h3 := LrnRuns(c, k, h2, a.relu);
    g := PoolRuns(c, k, h3, Nth(k.lrn, [a.relu], 0));
    RunFirst(ConvStep(c, k), [ReluStep(c, k), LrnStep(c, k), PoolStep(c, k)], h, h1);
    RunFirst(ReluStep(c, k), [LrnStep(c, k), PoolStep(c, k)], h1, h2);
    RunFirst(LrnStep(c, k), [PoolStep(c, k)], h2, h3);
    RunOne(PoolStep(c, k), h3);
    assert [ConvStep(c, k)] + [ReluStep(c, k), LrnStep(c, k), PoolStep(c, k)] == [ConvStep(c, k), ReluStep(c, k), LrnStep(c, k), PoolStep(c, k)];
    assert [ReluStep(c, k)] + [LrnStep(c, k), PoolStep(c, k)] == [ReluStep(c, k), LrnStep(c, k), PoolStep(c, k)];
    assert [LrnStep(c, k)] + [PoolStep(c, k)] == [LrnStep(c, k), PoolStep(c, k)];
    HoldsStays(h1, h2, [RELU_DST], CONV_DST, c.dst, a.conv);
    HoldsStays(h2, h3, [LRN_DST, LRN_WS], CONV_DST, c.dst, a.conv);
    HoldsStays(h3, g, [DstHandle(c), POOL_WS], CONV_DST, c.dst, a.conv);
    HoldsStays(h2, h3, [LRN_DST, LRN_WS], RELU_DST, c.dst, a.relu);
    HoldsStays(h3, g, [DstHandle(c), POOL_WS], RELU_DST, c.dst, a.relu);
    HoldsStays(h3, g, [DstHandle(c), POOL_WS], LRN_WS, c.lrnWs, a.lrnWs);
    KeepsMore(h, h1, h2, [CONV_DST], [RELU_DST]);
    KeepsMore(h, h2, h3, [CONV_DST] + [RELU_DST], [LRN_DST, LRN_WS]);
    KeepsMore(h, h3, g, [CONV_DST] + [RELU_DST] + [LRN_DST, LRN_WS], [DstHandle(c), POOL_WS]);
  }

  lemma ReadyIsHeap(c: Choices)
    ensures forall h :: Ready(h, c) ==> IsHeap(h)
  {
  }

  lemma {:induction false} RunJoin(a: seq<Step>, b: seq<Step>, h: Heap, g: Heap)
    requires IsHeap(h) && Run(a, h) == Some(g)
    ensures Run(a + b, h) == Run(b, g)
  {
    hide Run;
    RunOfSum(a, b, h);
  }

  lemma ReadyChoices(h: Heap, c: Choices)
    requires Ready(h, c)
    ensures IsHeap(h)
    ensures c.userSrc != c.src ==> Fits(h, CONV_INTERNAL_SRC, c.src)
    ensures c.userWei != c.wei ==> Fits(h, CONV_INTERNAL_WEI, c.wei)
    ensures c.userDiffDst != c.poolDst ==> Fits(h, POOL_INTERNAL_DIFF_DST, c.poolDst)
    ensures c.src != c.bwdSrc ==> Fits(h, CONV_BWD_INTERNAL_SRC, c.bwdSrc)
    ensures c.dst != c.bwdDiffDst ==> Fits(h, CONV_INTERNAL_DIFF_DST, c.bwdDiffDst)
    ensures Fits(h, USER_DST, c.userDst) && Fits(h, USER_DIFF_WEI, c.userDiffWei)
  {
  }

  lemma HandlesApart(c: Choices)
    ensures SrcHandle(c) in [USER_SRC, CONV_INTERNAL_SRC] && WeiHandle(c) in [USER_WEI, CONV_INTERNAL_WEI]
    ensures DstHandle(c) in [USER_DST, POOL_INTERNAL_DST] && DiffDstHandle(c) in [USER_DIFF_DST, POOL_INTERNAL_DIFF_DST]
    ensures BwdSrcHandle(c) in [USER_SRC, CONV_INTERNAL_SRC, CONV_BWD_INTERNAL_SRC]
    ensures BwdDiffDstHandle(c) in [RELU_DIFF_SRC, CONV_INTERNAL_DIFF_DST]
    ensures DiffWeiHandle(c) in [USER_DIFF_WEI, CONV_INTERNAL_DIFF_WEI]
  {
  }

  /** The memories the forward pass writes. */
  function ForwardWrites(c: Choices): seq<Handle> {
    [CONV_INTERNAL_SRC] + [CONV_INTERNAL_WEI] + ([CONV_DST] + [RELU_DST] + [LRN_DST, LRN_WS] + [DstHandle(c), POOL_WS]) + [USER_DST]
  }

  lemma {:induction false} ForwardInputs(c: Choices, h: Heap, src: Tensor, wei: Tensor, bias: Tensor) returns (g: Heap)
    requires AreChoices(c) && Ready(h, c)
    requires Holds(h, USER_SRC, c.userSrc, src) && Holds(h, USER_WEI, c.userWei, wei) && Holds(h, USER_BIAS, c.bias, bias)
    ensures Run(MaybeReorder(USER_SRC, c.userSrc, c.src, CONV_INTERNAL_SRC, true)
                + MaybeReorder(USER_WEI, c.userWei, c.wei, CONV_INTERNAL_WEI, true), h) == Some(g)
    ensures Ready(g, c) && Keeps(h, g, [CONV_INTERNAL_SRC] + [CONV_INTERNAL_WEI])
    ensures Holds(g, SrcHandle(c), c.src, src) && Holds(g, WeiHandle(c), c.wei, wei) && Holds(g, USER_BIAS, c.bias, bias)
  {
    hide Run, Holds, Keeps, Ready, IsLayout, MaybeReorder, SrcHandle, WeiHandle, Chosen, Fits;
    HandlesApart(c);
    HandleOfSrc(c);
    ReadyChoices(h, c);
    var h1 := ReorderedIn(h, USER_SRC, c.userSrc, c.src, CONV_INTERNAL_SRC, src);
    ReadyStays(h, h1, c, [CONV_INTERNAL_SRC]);
    HoldsStays(h, h1, [CONV_INTERNAL_SRC], USER_WEI, c.userWei, wei);
    HoldsStays(h, h1, [CONV_INTERNAL_SRC], USER_BIAS, c.bias, bias);
    ReadyChoices(h1, c);
    g := ReorderedIn(h1, USER_WEI, c.userWei, c.wei, CONV_INTERNAL_WEI, wei);
    ReadyStays(h1, g, c, [CONV_INTERNAL_WEI]);
    HoldsStays(h1, g, [CONV_INTERNAL_WEI], SrcHandle(c), c.src, src);
    HoldsStays(h1, g, [CONV_INTERNAL_WEI], USER_BIAS, c.bias, bias);
    KeepsMore(h, h1, g, [CONV_INTERNAL_SRC], [CONV_INTERNAL_WEI]);
    RunJoin(MaybeReorder(USER_SRC, c.userSrc, c.src, CONV_INTERNAL_SRC, true), MaybeReorder(USER_WEI, c.userWei, c.wei, CONV_INTERNAL_WEI, true),
            h, h1);
  }

  /** For every choice of layouts the forward net runs to its end and leaves the
      reference output with the user and the activations for the backward pass. */
  lemma {:induction false} ForwardRuns(c: Choices, k: Kernels, h: Heap, src: Tensor, wei: Tensor, bias: Tensor) returns (g: Heap)
    requires AreChoices(c) && AreKernels(c, k) && Ready(h, c)
    requires Holds(h, USER_SRC, c.userSrc, src) && Holds(h, USER_WEI, c.userWei, wei) && Holds(h, USER_BIAS, c.bias, bias)
    ensures Run(ForwardNet(c, k), h) == Some(g) && Ready(g, c) && Keeps(h, g, ForwardWrites(c))
    ensures Forwarded(g, c, Forward(k, src, wei, bias)) && Holds(g, SrcHandle(c), c.src, src)
    ensures Holds(g, USER_DST, c.userDst, Forward(k, src, wei, bias).out)
  {
    hide Run, Holds, Keeps, AreKernels, Ready, ConvStep, ReluStep, LrnStep, PoolStep, Forward, MaybeReorder, SrcHandle, WeiHandle, DstHandle,
      Forwarded, AreChoices;
    var a := Forward(k, src, wei, bias);
    HandlesApart(c);
    ReadyIsHeap(c);
    var h2 := ForwardInputs(c, h, src, wei, bias);
    var layers := [ConvStep(c, k), ReluStep(c, k), LrnStep(c, k), PoolStep(c, k)];
    var writes := [CONV_DST] + [RELU_DST] + [LRN_DST, LRN_WS] + [DstHandle(c), POOL_WS];
    var h3 := ForwardLayers(c, k, h2, src, wei, bias);
    HoldsStays(h2, h3, writes, SrcHandle(c), c.src, src);
    KeepsMore(h, h2, h3, [CONV_INTERNAL_SRC] + [CONV_INTERNAL_WEI], writes);
    g := ForwardOutput(c, h3, src, a);
    KeepsMore(h, h3, g, [CONV_INTERNAL_SRC] + [CONV_INTERNAL_WEI] + writes, [USER_DST]);
    var r := MaybeReorder(USER_SRC, c.userSrc, c.src, CONV_INTERNAL_SRC, true) + MaybeReorder(USER_WEI, c.userWei, c.wei, CONV_INTERNAL_WEI, true);
    RunJoin(r, layers, h, h2);
    RunJoin(r + layers, MaybeReorder(USER_DST, c.userDst, c.poolDst, POOL_INTERNAL_DST, false), h, h3);
  }

  lemma {:induction false} ForwardOutput(c: Choices, h: Heap, src: Tensor, a: Activations) returns (g: Heap)
    requires AreChoices(c) && Ready(h, c) && Forwarded(h, c, a)
    requires Holds(h, DstHandle(c), c.poolDst, a.out) && Holds(h, SrcHandle(c), c.src, src)
    ensures Run(MaybeReorder(USER_DST, c.userDst, c.poolDst, POOL_INTERNAL_DST, false), h) == Some(g) && Ready(g, c) && Keeps(h, g, [USER_DST])
    ensures Forwarded(g, c, a) && Holds(g, SrcHandle(c), c.src, src) && Holds(g, USER_DST, c.userDst, a.out)
  {
    hide Run, Holds, Keeps, Ready, IsLayout, MaybeReorder, SrcHandle, DstHandle, Chosen, Fits, Forwarded;
    HandlesApart(c);
    HandleOfSrc(c);
    ReadyChoices(h, c);
    g := ReorderedOut(h, USER_DST, c.userDst, c.poolDst, POOL_INTERNAL_DST, a.out);
    ReadyStays(h, g, c, [USER_DST]);
    HoldsStays(h, g, [USER_DST], SrcHandle(c), c.src, src);
    ForwardedStays(h, g, c, a, [USER_DST]);
  }

  lemma HandleOfSrc(c: Choices)
    ensures SrcHandle(c) == Chosen(USER_SRC, c.userSrc, c.src, CONV_INTERNAL_SRC)
    ensures WeiHandle(c) == Chosen(USER_WEI, c.userWei, c.wei, CONV_INTERNAL_WEI)
    ensures DstHandle(c) == Chosen(USER_DST, c.userDst, c.poolDst, POOL_INTERNAL_DST)
    ensures DiffDstHandle(c) == Chosen(USER_DIFF_DST, c.userDiffDst, c.poolDst, POOL_INTERNAL_DIFF_DST)
    ensures BwdSrcHandle(c) == Chosen(SrcHandle(c), c.src, c.bwdSrc, CONV_BWD_INTERNAL_SRC)
    ensures BwdDiffDstHandle(c) == Chosen(RELU_DIFF_SRC, c.dst, c.bwdDiffDst, CONV_INTERNAL_DIFF_DST)
    ensures DiffWeiHandle(c) == Chosen(USER_DIFF_WEI, c.userDiffWei, c.bwdDiffWei, CONV_INTERNAL_DIFF_WEI)
  {
  }

  lemma ForwardedStays(h: Heap, g: Heap, c: Choices, a: Activations, changed: seq<Handle>)
    requires Forwarded(h, c, a) && Keeps(h, g, changed)
    requires forall k | k in changed :: k != CONV_DST && k != RELU_DST && k != LRN_WS && k != POOL_WS
    ensures Forwarded(g, c, a)
  {
    hide Holds, Keeps;
    HoldsStays(h, g, changed, CONV_DST, c.dst, a.conv);
    HoldsStays(h, g, changed, RELU_DST, c.dst, a.relu);
    HoldsStays(h, g, changed, LRN_WS, c.lrnWs, a.lrnWs);
    HoldsStays(h, g, changed, POOL_WS, c.poolWs, a.poolWs);
  }

  // The backward pass

  lemma {:induction false} BackwardLayers(c: Choices, k: Kernels, h: Heap, src: Tensor, a: Activations, d: Tensor) returns (g: Heap)
    requires AreKernels(c, k) && Ready(h, c) && Forwarded(h, c, a)
    requires Holds(h, SrcHandle(c), c.src, src) && Holds(h, DiffDstHandle(c), c.poolDst, d)
    ensures Run([PoolBwdStep(c, k), LrnBwdStep(c, k), ReluBwdStep(c, k)], h) == Some(g) && Ready(g, c)
    ensures Holds(g, RELU_DIFF_SRC, c.dst, ConvGradient(k, a, d)) && Holds(g, SrcHandle(c), c.src, src)
    ensures Keeps(h, g, [POOL_DIFF_SRC] + [LRN_DIFF_SRC] + [RELU_DIFF_SRC])
  {
    hide Execute, Run, Holds, Keeps, AreKernels, Ready, PoolBwdStep, LrnBwdStep, ReluBwdStep;
    ReadyIsHeap(c);
    HandlesApart(c);
    var poolDiff := Nth(k.poolBwd, [d, a.poolWs], 0);
    var h1 := PoolBwdRuns(c, k, h, d, a.poolWs);
    ForwardedStays(h, h1, c, a, [POOL_DIFF_SRC]);
    var h2 := LrnBwdRuns(c, k, h1, a.relu, poolDiff, a.lrnWs);
    ForwardedStays(h1, h2, c, a, [LRN_DIFF_SRC]);
    g := ReluBwdRuns(c, k, h2, a.conv, Nth(k.lrnBwd, [a.relu, poolDiff, a.lrnWs], 0));
    RunFirst(PoolBwdStep(c, k), [LrnBwdStep(c, k), ReluBwdStep(c, k)], h, h1);
    RunFirst(LrnBwdStep(c, k), [ReluBwdStep(c, k)], h1, h2);
    RunOne(ReluBwdStep(c, k), h2);
    assert [PoolBwdStep(c, k)] + [LrnBwdStep(c, k), ReluBwdStep(c, k)] == [PoolBwdStep(c, k), LrnBwdStep(c, k), ReluBwdStep(c, k)];
    assert [LrnBwdStep(c, k)] + [ReluBwdStep(c, k)] == [LrnBwdStep(c, k), ReluBwdStep(c, k)];
    KeepsMore(h, h1, h2, [POOL_DIFF_SRC], [LRN_DIFF_SRC]);
    KeepsMore(h, h2, g, [POOL_DIFF_SRC] + [LRN_DIFF_SRC], [RELU_DIFF_SRC]);
    HoldsStays(h, g, [POOL_DIFF_SRC] + [LRN_DIFF_SRC] + [RELU_DIFF_SRC], SrcHandle(c), c.src, src);
  }

  lemma {:induction false} BackwardInputs(c: Choices, h: Heap, src: Tensor, d: Tensor) returns (g: Heap)
    requires AreChoices(c) && Ready(h, c) && Holds(h, SrcHandle(c), c.src, src) && Holds(h, RELU_DIFF_SRC, c.dst, d)
    ensures Run(MaybeReorder(SrcHandle(c), c.src, c.bwdSrc, CONV_BWD_INTERNAL_SRC, true)
                + MaybeReorder(RELU_DIFF_SRC, c.dst, c.bwdDiffDst, CONV_INTERNAL_DIFF_DST, true), h) == Some(g)
    ensures Ready(g, c) && Keeps(h, g, [CONV_BWD_INTERNAL_SRC] + [CONV_INTERNAL_DIFF_DST])
    ensures Holds(g, BwdSrcHandle(c), c.bwdSrc, src) && Holds(g, BwdDiffDstHandle(c), c.bwdDiffDst, d)
  {
    hide Run, Holds, Keeps, Ready, IsLayout, MaybeReorder, SrcHandle, BwdSrcHandle, BwdDiffDstHandle, Chosen, Fits;
    HandlesApart(c);
    HandleOfSrc(c);
    ReadyChoices(h, c);
    var h1 := ReorderedIn(h, SrcHandle(c), c.src, c.bwdSrc, CONV_BWD_INTERNAL_SRC, src);
    ReadyStays(h, h1, c, [CONV_BWD_INTERNAL_SRC]);
    HoldsStays(h, h1, [CONV_BWD_INTERNAL_SRC], RELU_DIFF_SRC, c.dst, d);
    ReadyChoices(h1, c);
    g := ReorderedIn(h1, RELU_DIFF_SRC, c.dst, c.bwdDiffDst, CONV_INTERNAL_DIFF_DST, d);
    ReadyStays(h1, g, c, [CONV_INTERNAL_DIFF_DST]);
    HoldsStays(h1, g, [CONV_INTERNAL_DIFF_DST], BwdSrcHandle(c), c.bwdSrc, src);
    KeepsMore(h, h1, g, [CONV_BWD_INTERNAL_SRC], [CONV_INTERNAL_DIFF_DST]);
    RunJoin(MaybeReorder(SrcHandle(c), c.src, c.bwdSrc, CONV_BWD_INTERNAL_SRC, true),
            MaybeReorder(RELU_DIFF_SRC, c.dst, c.bwdDiffDst, CONV_INTERNAL_DIFF_DST, true), h, h1);
  }

  lemma {:induction false} BackwardConv(c: Choices, k: Kernels, h: Heap, src: Tensor, d: Tensor) returns (g: Heap)
    requires AreChoices(c) && AreKernels(c, k) && Ready(h, c)
    requires Holds(h, SrcHandle(c), c.src, src) && Holds(h, RELU_DIFF_SRC, c.dst, d)
    ensures Ready(g, c) && Keeps(h, g, [CONV_BWD_INTERNAL_SRC] + [CONV_INTERNAL_DIFF_DST] + [DiffWeiHandle(c), DIFF_BIAS] + [USER_DIFF_WEI])
    ensures Run(MaybeReorder(SrcHandle(c), c.src, c.bwdSrc, CONV_BWD_INTERNAL_SRC, true)
                + MaybeReorder(RELU_DIFF_SRC, c.dst, c.bwdDiffDst, CONV_INTERNAL_DIFF_DST, true) + [ConvBwdStep(c, k)]
                + MaybeReorder(USER_DIFF_WEI, c.userDiffWei, c.bwdDiffWei, CONV_INTERNAL_DIFF_WEI, false), h) == Some(g)
    ensures Holds(g, USER_DIFF_WEI, c.userDiffWei, Nth(k.convBwd, [src, d], 0)) && Holds(g, DIFF_BIAS, c.diffBias, Nth(k.convBwd, [src, d], 1))
  {
    hide Execute, Run, Holds, Keeps, AreKernels, Ready, ConvBwdStep, MaybeReorder, SrcHandle, DiffWeiHandle, AreChoices, Nth;
    ReadyIsHeap(c);
    var h2 := BackwardInputs(c, h, src, d);
    var h3 := ConvBwdRuns(c, k, h2, src, d);
    KeepsMore(h, h2, h3, [CONV_BWD_INTERNAL_SRC] + [CONV_INTERNAL_DIFF_DST], [DiffWeiHandle(c), DIFF_BIAS]);
    g := BackwardOutput(c, h3, Nth(k.convBwd, [src, d], 0), Nth(k.convBwd, [src, d], 1));
    KeepsMore(h, h3, g, [CONV_BWD_INTERNAL_SRC] + [CONV_INTERNAL_DIFF_DST] + [DiffWeiHandle(c), DIFF_BIAS], [USER_DIFF_WEI]);
    var r := MaybeReorder(SrcHandle(c), c.src, c.bwdSrc, CONV_BWD_INTERNAL_SRC, true)
             + MaybeReorder(RELU_DIFF_SRC, c.dst, c.bwdDiffDst, CONV_INTERNAL_DIFF_DST, true);
    RunJoin(r, [ConvBwdStep(c, k)], h, h2);
    RunOne(ConvBwdStep(c, k), h2);
    RunJoin(r + [ConvBwdStep(c, k)], MaybeReorder(USER_DIFF_WEI, c.userDiffWei, c.bwdDiffWei, CONV_INTERNAL_DIFF_WEI, false), h, h3);
  }

  lemma {:induction false} BackwardOutput(c: Choices, h: Heap, dw: Tensor, db: Tensor) returns (g: Heap)
    requires AreChoices(c) && Ready(h, c) && Holds(h, DiffWeiHandle(c), c.bwdDiffWei, dw) && Holds(h, DIFF_BIAS, c.diffBias, db)
    ensures Run(MaybeReorder(USER_DIFF_WEI, c.userDiffWei, c.bwdDiffWei, CONV_INTERNAL_DIFF_WEI, false), h) == Some(g)
    ensures Ready(g, c) && Keeps(h, g, [USER_DIFF_WEI])
    ensures Holds(g, USER_DIFF_WEI, c.userDiffWei, dw) && Holds(g, DIFF_BIAS, c.diffBias, db)
  {
    hide Run, Holds, Keeps, Ready, IsLayout, MaybeReorder, DiffWeiHandle, Chosen, Fits;
    HandleOfSrc(c);
    ReadyChoices(h, c);
    g := ReorderedOut(h, USER_DIFF_WEI, c.userDiffWei, c.bwdDiffWei, CONV_INTERNAL_DIFF_WEI, dw);
    ReadyStays(h, g, c, [USER_DIFF_WEI]);
    HoldsStays(h, g, [USER_DIFF_WEI], DIFF_BIAS, c.diffBias, db);
  }

  /** The memories the backward pass writes. */
  function BackwardWrites(c: Choices): seq<Handle> {
    [POOL_INTERNAL_DIFF_DST] + ([POOL_DIFF_SRC] + [LRN_DIFF_SRC] + [RELU_DIFF_SRC])
    + ([CONV_BWD_INTERNAL_SRC] + [CONV_INTERNAL_DIFF_DST] + [DiffWeiHandle(c), DIFF_BIAS] + [USER_DIFF_WEI])
  }

  /** For every choice of layouts the backward net runs to its end and leaves the
      reference gradients with the user. */
  /** The reorder of the incoming gradient and the backward layers. */
  lemma {:induction false} BackwardStarts(c: Choices, k: Kernels, h: Heap, src: Tensor, a: Activations, d: Tensor) returns (g: Heap)
    requires AreChoices(c) && AreKernels(c, k) && Ready(h, c) && Forwarded(h, c, a)
    requires Holds(h, SrcHandle(c), c.src, src) && Holds(h, USER_DIFF_DST, c.userDiffDst, d)
    ensures Run(MaybeReorder(USER_DIFF_DST, c.userDiffDst, c.poolDst, POOL_INTERNAL_DIFF_DST, true)
                + [PoolBwdStep(c, k), LrnBwdStep(c, k), ReluBwdStep(c, k)], h) == Some(g) && Ready(g, c)
    ensures Holds(g, RELU_DIFF_SRC, c.dst, ConvGradient(k, a, d)) && Holds(g, SrcHandle(c), c.src, src)
    ensures Keeps(h, g, [POOL_INTERNAL_DIFF_DST] + ([POOL_DIFF_SRC] + [LRN_DIFF_SRC] + [RELU_DIFF_SRC]))
  {
    hide Execute, Run, Holds, Keeps, AreKernels, Ready, ConvBwdStep, PoolBwdStep, LrnBwdStep, ReluBwdStep, IsLayout, MaybeReorder, SrcHandle,
      DiffDstHandle, DiffWeiHandle, Chosen, Fits, ConvGradient, Forwarded, Nth;
    HandlesApart(c);
    HandleOfSrc(c);
    ReadyChoices(h, c);
    var h1 := ReorderedIn(h, USER_DIFF_DST, c.userDiffDst, c.poolDst, POOL_INTERNAL_DIFF_DST, d);
    ReadyStays(h, h1, c, [POOL_INTERNAL_DIFF_DST]);
    ForwardedStays(h, h1, c, a, [POOL_INTERNAL_DIFF_DST]);
    HoldsStays(h, h1, [POOL_INTERNAL_DIFF_DST], SrcHandle(c), c.src, src);
    g := BackwardLayers(c, k, h1, src, a, d);
    KeepsMore(h, h1, g, [POOL_INTERNAL_DIFF_DST], [POOL_DIFF_SRC] + [LRN_DIFF_SRC] + [RELU_DIFF_SRC]);
    RunJoin(MaybeReorder(USER_DIFF_DST, c.userDiffDst, c.poolDst, POOL_INTERNAL_DIFF_DST, true),
            [PoolBwdStep(c, k), LrnBwdStep(c, k), ReluBwdStep(c, k)], h, h1);
  }

  lemma {:induction false} BackwardRuns(c: Choices, k: Kernels, h: Heap, src: Tensor, a: Activations, d: Tensor) returns (g: Heap)
    requires AreChoices(c) && AreKernels(c, k) && Ready(h, c) && Forwarded(h, c, a)
    requires Holds(h, SrcHandle(c), c.src, src) && Holds(h, USER_DIFF_DST, c.userDiffDst, d)
    ensures Run(BackwardNet(c, k), h) == Some(g) && Ready(g, c) && Keeps(h, g, BackwardWrites(c))
    ensures Holds(g, USER_DIFF_WEI, c.userDiffWei, WeightGradient(k, src, a, d))
    ensures Holds(g, DIFF_BIAS, c.diffBias, BiasGradient(k, src, a, d))
  {
    hide Execute, Run, Holds, Keeps, AreKernels, Ready, ConvBwdStep, PoolBwdStep, LrnBwdStep, ReluBwdStep, IsLayout, MaybeReorder, SrcHandle,
      DiffDstHandle, DiffWeiHandle, Chosen, Fits, ConvGradient, Forwarded, Nth;
    ReadyChoices(h, c);
    var h2 := BackwardStarts(c, k, h, src, a, d);
    g := BackwardConv(c, k, h2, src, ConvGradient(k, a, d));
    KeepsMore(h, h2, g, [POOL_INTERNAL_DIFF_DST] + ([POOL_DIFF_SRC] + [LRN_DIFF_SRC] + [RELU_DIFF_SRC]),
              [CONV_BWD_INTERNAL_SRC] + [CONV_INTERNAL_DIFF_DST] + [DiffWeiHandle(c), DIFF_BIAS] + [USER_DIFF_WEI]);
    var start := MaybeReorder(USER_DIFF_DST, c.userDiffDst, c.poolDst, POOL_INTERNAL_DIFF_DST, true)
                 + [PoolBwdStep(c, k), LrnBwdStep(c, k), ReluBwdStep(c, k)];
    var r1 := MaybeReorder(SrcHandle(c), c.src, c.bwdSrc, CONV_BWD_INTERNAL_SRC, true);
    var r2 := MaybeReorder(RELU_DIFF_SRC, c.dst, c.bwdDiffDst, CONV_INTERNAL_DIFF_DST, true);
    var r3 := MaybeReorder(USER_DIFF_WEI, c.userDiffWei, c.bwdDiffWei, CONV_INTERNAL_DIFF_WEI, false);
    RunJoin(start, r1 + r2 + [ConvBwdStep(c, k)] + r3, h, h2);
    Flatten4(start, r1, r2, [ConvBwdStep(c, k)], r3);
  }

  lemma Flatten4<T>(p: seq<T>, a: seq<T>, b: seq<T>, c: seq<T>, d: seq<T>)
    ensures p + (a + b + c + d) == p + a + b + c + d
  {
  }

  // Training

  /** What the user does between the passes. */
  datatype Updates = Updates(diff: (Tensor, Tensor) -> Tensor, wei: (Tensor, Tensor) -> Tensor, bias: (Tensor, Tensor) -> Tensor)

  ghost predicate AreUpdates(c: Choices, u: Updates) {
    && (forall x, y :: |u.diff(x, y)| == |c.userDiffDst.offsets|)
    && (forall x, y :: |u.wei(x, y)| == |c.userWei.offsets|)
    && (forall x, y :: |u.bias(x, y)| == |c.bias.offsets|)
  }

  datatype Params = Params(wei: Tensor, bias: Tensor, diff: Tensor)

  /** One iteration on tensors alone. */
  function Improved(k: Kernels, u: Updates, src: Tensor, p: Params): Params {
    var a := Forward(k, src, p.wei, p.bias);
    var diff := u.diff(a.out, p.diff);
    Params(u.wei(p.wei, WeightGradient(k, src, a, diff)), u.bias(p.bias, BiasGradient(k, src, a, diff)), diff)
  }

  function ImprovedTimes(k: Kernels, u: Updates, src: Tensor, p: Params, n: nat): Params {
    if n == 0 then p else Improved(k, u, src, ImprovedTimes(k, u, src, p, n - 1))
  }

  /** The tensor in a memory, if it exists. */
  function ReadAt(h: Heap, k: Handle): Tensor
    requires IsHeap(h)
  {
    if k in h then Read(h[k]) else []
  }

  function WriteAt(h: Heap, k: Handle, t: Tensor): (g: Heap)
    requires IsHeap(h)
    ensures IsHeap(g)
  {
    if k in h && |t| == |h[k].layout.offsets| then h[k := Write(h[k], t)] else h
  }

  function UpdateDiff(u: Updates, h: Heap): (g: Heap)
    requires IsHeap(h)
    ensures IsHeap(g)
  {
    WriteAt(h, USER_DIFF_DST, u.diff(ReadAt(h, USER_DST), ReadAt(h, USER_DIFF_DST)))
  }

  function UpdateWeights(u: Updates, h: Heap): (g: Heap)
    requires IsHeap(h)
    ensures IsHeap(g)
  {
    WriteAt(WriteAt(h, USER_WEI, u.wei(ReadAt(h, USER_WEI), ReadAt(h, USER_DIFF_WEI))),
            USER_BIAS, u.bias(ReadAt(h, USER_BIAS), ReadAt(h, DIFF_BIAS)))
  }

  /** One iteration on the heap; none if some primitive cannot run. */
  function Iterate(fwd: seq<Step>, bwd: seq<Step>, u: Updates, h: Heap): (r: Option<Heap>)
    requires IsHeap(h)
    ensures r.Some? ==> IsHeap(r.value)
  {
    match Run(fwd, h)
    case None => None
    case Some(g) =>
      match Run(bwd, UpdateDiff(u, g))
      case None => None
      case Some(f) => Some(UpdateWeights(u, f))
  }

  function Train(fwd: seq<Step>, bwd: seq<Step>, u: Updates, h: Heap, n: nat): (r: Option<Heap>)
    requires IsHeap(h)
    ensures r.Some? ==> IsHeap(r.value)
  {
    if n == 0 then Some(h)
    else
      match Train(fwd, bwd, u, h, n - 1)
      case None => None
      case Some(g) => Iterate(fwd, bwd, u, g)
  }

  /** The user's inputs and parameters are in their memories. */
  ghost predicate Trained(h: Heap, c: Choices, src: Tensor, p: Params) {
    && Ready(h, c) && Holds(h, USER_SRC, c.userSrc, src) && Holds(h, USER_WEI, c.userWei, p.wei)
    && Holds(h, USER_BIAS, c.bias, p.bias) && Holds(h, USER_DIFF_DST, c.userDiffDst, p.diff)
  }

  /** The user's outputs of the last iteration are in theirs. */
  ghost predicate Delivered(h: Heap, c: Choices, k: Kernels, u: Updates, src: Tensor, p: Params) {
    var a := Forward(k, src, p.wei, p.bias);
    && Holds(h, USER_DST, c.userDst, a.out)
    && Holds(h, USER_DIFF_WEI, c.userDiffWei, WeightGradient(k, src, a, u.diff(a.out, p.diff)))
    && Holds(h, DIFF_BIAS, c.diffBias, BiasGradient(k, src, a, u.diff(a.out, p.diff)))
  }

  lemma {:induction false} WriteAtWrites(h: Heap, k: Handle, l: Layout, t: Tensor)
    requires IsHeap(h) && Fits(h, k, l) && |t| == |l.offsets|
    ensures Holds(WriteAt(h, k, t), k, l, t) && Keeps(h, WriteAt(h, k, t), [k])
  {
    hide Holds, Keeps, Write;
    WriteOne(h, k, l, t);
  }

  lemma HeldIsRead(h: Heap, k: Handle, l: Layout, t: Tensor)
    requires IsHeap(h) && Holds(h, k, l, t)
    ensures ReadAt(h, k) == t && Fits(h, k, l)
  {
  }

  lemma {:induction false} DiffUpdated(c: Choices, u: Updates, h: Heap, out: Tensor, diff: Tensor)
    requires AreUpdates(c, u) && IsHeap(h) && Holds(h, USER_DST, c.userDst, out) && Holds(h, USER_DIFF_DST, c.userDiffDst, diff)
    ensures Holds(UpdateDiff(u, h), USER_DIFF_DST, c.userDiffDst, u.diff(out, diff)) && Keeps(h, UpdateDiff(u, h), [USER_DIFF_DST])
  {
    hide Holds, Keeps, WriteAt, ReadAt;
    HeldIsRead(h, USER_DST, c.userDst, out);
    HeldIsRead(h, USER_DIFF_DST, c.userDiffDst, diff);
    WriteAtWrites(h, USER_DIFF_DST, c.userDiffDst, u.diff(out, diff));
  }

  lemma {:induction false} WeightsUpdated(c: Choices, u: Updates, h: Heap, w: Tensor, dw: Tensor, b: Tensor, db: Tensor)
    requires AreUpdates(c, u) && IsHeap(h) && Holds(h, USER_WEI, c.userWei, w) && Holds(h, USER_DIFF_WEI, c.userDiffWei, dw)
    requires Holds(h, USER_BIAS, c.bias, b) && Holds(h, DIFF_BIAS, c.diffBias, db)
    ensures Holds(UpdateWeights(u, h), USER_WEI, c.userWei, u.wei(w, dw)) && Holds(UpdateWeights(u, h), USER_BIAS, c.bias, u.bias(b, db))
    ensures Keeps(h, UpdateWeights(u, h), [USER_WEI] + [USER_BIAS])
  {
    hide Holds, Keeps, WriteAt, ReadAt, Fits;
    HeldIsRead(h, USER_WEI, c.userWei, w);
    HeldIsRead(h, USER_DIFF_WEI, c.userDiffWei, dw);
    HeldIsRead(h, USER_BIAS, c.bias, b);
    HeldIsRead(h, DIFF_BIAS, c.diffBias, db);
    WriteAtWrites(h, USER_WEI, c.userWei, u.wei(w, dw));
    var g := WriteAt(h, USER_WEI, u.wei(w, dw));
    HoldsStays(h, g, [USER_WEI], USER_BIAS, c.bias, b);
    HeldIsRead(g, USER_BIAS, c.bias, b);
    WriteAtWrites(g, USER_BIAS, c.bias, u.bias(b, db));
    var f := WriteAt(g, USER_BIAS, u.bias(b, db));
    HoldsStays(g, f, [USER_BIAS], USER_WEI, c.userWei, u.wei(w, dw));
    KeepsMore(h, g, f, [USER_WEI], [USER_BIAS]);
  }

  lemma ForwardWritesApart(c: Choices)
    ensures forall k | k in ForwardWrites(c) :: k !in [USER_SRC, USER_WEI, USER_BIAS, USER_DIFF_DST]
  {
    hide DstHandle;
    HandlesApart(c);
  }

  lemma BackwardWritesApart(c: Choices)
    ensures forall k | k in BackwardWrites(c) :: k !in [USER_SRC, USER_WEI, USER_BIAS, USER_DIFF_DST, USER_DST]
  {
    hide DiffWeiHandle;
    HandlesApart(c);
  }

  /** What the user gave is still there after both passes. */
  lemma {:induction false} UserKept(h: Heap, g: Heap, c: Choices, src: Tensor, p: Params, changed: seq<Handle>)
    requires Trained(h, c, src, p) && Keeps(h, g, changed) && Ready(g, c)
    requires forall k | k in changed :: k !in [USER_SRC, USER_WEI, USER_BIAS, USER_DIFF_DST]
    ensures Trained(g, c, src, p)
  {
    hide Holds, Keeps, Ready;
    HoldsStays(h, g, changed, USER_SRC, c.userSrc, src);
    HoldsStays(h, g, changed, USER_WEI, c.userWei, p.wei);
    HoldsStays(h, g, changed, USER_BIAS, c.bias, p.bias);
    HoldsStays(h, g, changed, USER_DIFF_DST, c.userDiffDst, p.diff);
  }

  lemma {:induction false} DiffKept(h: Heap, c: Choices, u: Updates, src: Tensor, p: Params, a: Activations)
    requires AreUpdates(c, u) && Trained(h, c, src, p) && Forwarded(h, c, a)
    requires Holds(h, USER_DST, c.userDst, a.out) && Holds(h, SrcHandle(c), c.src, src)
    ensures var g := UpdateDiff(u, h);
            && Trained(g, c, src, p.(diff := u.diff(a.out, p.diff))) && Forwarded(g, c, a)
            && Holds(g, USER_DST, c.userDst, a.out) && Holds(g, SrcHandle(c), c.src, src)
  {
    hide Holds, Keeps, Ready, Forwarded, UpdateDiff, SrcHandle, AreUpdates;
    ReadyIsHeap(c);
    HandlesApart(c);
    var g, changed := UpdateDiff(u, h), [USER_DIFF_DST];
    DiffUpdated(c, u, h, a.out, p.diff);
    ReadyStays(h, g, c, changed);
    ForwardedStays(h, g, c, a, changed);
    HoldsStays(h, g, changed, USER_SRC, c.userSrc, src);
    HoldsStays(h, g, changed, USER_WEI, c.userWei, p.wei);
    HoldsStays(h, g, changed, USER_BIAS, c.bias, p.bias);
    HoldsStays(h, g, changed, USER_DST, c.userDst, a.out);
    HoldsStays(h, g, changed, SrcHandle(c), c.src, src);
  }

  lemma {:induction false} WeightsKept(h: Heap, c: Choices, u: Updates, src: Tensor, p: Params, out: Tensor, dw: Tensor, db: Tensor)
    requires AreUpdates(c, u) && Trained(h, c, src, p) && Holds(h, USER_DST, c.userDst, out)
    requires Holds(h, USER_DIFF_WEI, c.userDiffWei, dw) && Holds(h, DIFF_BIAS, c.diffBias, db)
    ensures var g := UpdateWeights(u, h);
            && Trained(g, c, src, Params(u.wei(p.wei, dw), u.bias(p.bias, db), p.diff)) && Holds(g, USER_DST, c.userDst, out)
            && Holds(g, USER_DIFF_WEI, c.userDiffWei, dw) && Holds(g, DIFF_BIAS, c.diffBias, db)
  {
    hide Holds, Keeps, Ready, UpdateWeights, AreUpdates;
    ReadyIsHeap(c);
    var g, changed := UpdateWeights(u, h), [USER_WEI] + [USER_BIAS];
    WeightsUpdated(c, u, h, p.wei, dw, p.bias, db);
    ReadyStays(h, g, c, changed);
    HoldsStays(h, g, changed, USER_SRC, c.userSrc, src);
    HoldsStays(h, g, changed, USER_DIFF_DST, c.userDiffDst, p.diff);
    HoldsStays(h, g, changed, USER_DST, c.userDst, out);
    HoldsStays(h, g, changed, USER_DIFF_WEI, c.userDiffWei, dw);
    HoldsStays(h, g, changed, DIFF_BIAS, c.diffBias, db);
  }

  /** One iteration never fails and does what it does without layouts, whatever
      the internal memories held before. */
  lemma {:induction false} IterationRuns(c: Choices, k: Kernels, u: Updates, h: Heap, src: Tensor, p: Params) returns (g: Heap)
    requires AreChoices(c) && AreKernels(c, k) && AreUpdates(c, u) && Trained(h, c, src, p)
    ensures IsHeap(h) && Iterate(ForwardNet(c, k), BackwardNet(c, k), u, h) == Some(g)
    ensures Trained(g, c, src, Improved(k, u, src, p)) && Delivered(g, c, k, u, src, p)
  {
    hide Run, Holds, Keeps, Ready, AreChoices, AreKernels, AreUpdates, Forward, WeightGradient, BiasGradient, ForwardNet, BackwardNet, UpdateDiff,
      UpdateWeights, ForwardWrites, BackwardWrites, Forwarded, SrcHandle;
    ReadyIsHeap(c);
    ForwardWritesApart(c);
    BackwardWritesApart(c);
    var a := Forward(k, src, p.wei, p.bias);
    var d := u.diff(a.out, p.diff);
    var h1 := ForwardRuns(c, k, h, src, p.wei, p.bias);
    UserKept(h, h1, c, src, p, ForwardWrites(c));
    DiffKept(h1, c, u, src, p, a);
    var h2 := UpdateDiff(u, h1);
    var h3 := BackwardRuns(c, k, h2, src, a, d);
    UserKept(h2, h3, c, src, p.(diff := d), BackwardWrites(c));
    HoldsStays(h2, h3, BackwardWrites(c), USER_DST, c.userDst, a.out);
    WeightsKept(h3, c, u, src, p.(diff := d), a.out, WeightGradient(k, src, a, d), BiasGradient(k, src, a, d));
    g := UpdateWeights(u, h3);
  }

  /** Training for any number of iterations never fails, and after each the user
      finds the parameters and outputs of training without layouts. */
  lemma {:induction false} TrainingRuns(c: Choices, k: Kernels, u: Updates, h: Heap, src: Tensor, p: Params, n: nat) returns (g: Heap)
    requires AreChoices(c) && AreKernels(c, k) && AreUpdates(c, u) && Trained(h, c, src, p)
    ensures IsHeap(h) && Train(ForwardNet(c, k), BackwardNet(c, k), u, h, n) == Some(g)
    ensures Trained(g, c, src, ImprovedTimes(k, u, src, p, n))
    ensures n > 0 ==> Delivered(g, c, k, u, src, ImprovedTimes(k, u, src, p, n - 1))
  {
    hide Ready, Holds, AreChoices, AreKernels, AreUpdates, ForwardNet, BackwardNet, Iterate, Improved, Delivered;
    ReadyIsHeap(c);
    if n == 0 {
      g := h;
    } else {
      var f := TrainingRuns(c, k, u, h, src, p, n - 1);
      g := IterationRuns(c, k, u, f, src, ImprovedTimes(k, u, src, p, n - 1));
    }
  }

  /** The layouts the primitives prefer make no difference to what the user gets. */
  lemma {:induction false} LayoutsDoNotMatter(c: Choices, e: Choices, k: Kernels, u: Updates, h: Heap, g: Heap, src: Tensor, p: Params, n: nat)
    requires AreChoices(c) && AreKernels(c, k) && AreUpdates(c, u) && Trained(h, c, src, p)
    requires AreChoices(e) && AreKernels(e, k) && AreUpdates(e, u) && Trained(g, e, src, p)
    ensures IsHeap(h) && IsHeap(g)
    ensures var r, s := Train(ForwardNet(c, k), BackwardNet(c, k), u, h, n), Train(ForwardNet(e, k), BackwardNet(e, k), u, g, n);
            && r.Some? && s.Some?
            && ReadAt(r.value, USER_WEI) == ReadAt(s.value, USER_WEI) && ReadAt(r.value, USER_BIAS) == ReadAt(s.value, USER_BIAS)
            && (n > 0 ==> ReadAt(r.value, USER_DST) == ReadAt(s.value, USER_DST))
  {
    hide Ready, Holds, AreChoices, AreKernels, AreUpdates, ForwardNet, BackwardNet, Train, Forward, WeightGradient, BiasGradient, ReadAt;
    ReadyIsHeap(c);
    ReadyIsHeap(e);
    var f := TrainingRuns(c, k, u, h, src, p, n);
    var d := TrainingRuns(e, k, u, g, src, p, n);
    var q := ImprovedTimes(k, u, src, p, n);
    HeldIsRead(f, USER_WEI, c.userWei, q.wei);
    HeldIsRead(d, USER_WEI, e.userWei, q.wei);
    HeldIsRead(f, USER_BIAS, c.bias, q.bias);
    HeldIsRead(d, USER_BIAS, e.bias, q.bias);
    if n > 0 {
      var before := ImprovedTimes(k, u, src, p, n - 1);
      HeldIsRead(f, USER_DST, c.userDst, Forward(k, src, before.wei, before.bias).out);
      HeldIsRead(d, USER_DST, e.userDst, Forward(k, src, before.wei, before.bias).out);
    }
  }
}
