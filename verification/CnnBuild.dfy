/** How the example builds the two nets in arrays of ten slots and executes them. */
module CnnBuild {
  import opened Common
  import opened Layouts
  import opened Nets
  import opened CnnTraining

  const SLOTS := 10

  type Slots = array<Option<Step>>

  /** The first slots of the array hold these steps, one each. */
  ghost predicate Filled(net: Slots, steps: seq<Step>)
    reads net
  {
    |steps| <= net.Length && forall i | 0 <= i < |steps| :: net[i] == Some(steps[i])
  }

  function NewMemory(l: Layout): Memory {
    Memory(l, false, seq(l.size, _ => 0.0))
  }

  /** The memories that existed are as before. */
  ghost predicate Extends(h: Heap, g: Heap) {
    IsHeap(g) && forall k | k in h :: k in g && g[k] == h[k]
  }

  method CreateMemory(heap0: Heap, k: Handle, l: Layout) returns (heap: Heap)
    requires IsHeap(heap0) && IsLayout(l) && k !in heap0
    ensures Extends(heap0, heap) && heap.Keys == heap0.Keys + {k} && Fits(heap, k, l)
  {
    heap := heap0[k := NewMemory(l)];
  }

  lemma ExtendsMore(a: Heap, b: Heap, c: Heap)
    requires Extends(a, b) && Extends(b, c)
    ensures Extends(a, c)
  {
    hide IsHeap;
  }

  lemma FitsStays(h: Heap, g: Heap, k: Handle, l: Layout)
    requires Fits(h, k, l) && Extends(h, g)
    ensures Fits(g, k, l) && IsHeap(g)
  {
  }

  lemma ExtendedIsHeap(h: Heap, g: Heap)
    requires Extends(h, g)
    ensures IsHeap(g)
  {
  }

  /** Puts a step into the next slot. */
  method AddStep(net: Slots, n0: nat, s: Step, ghost steps: seq<Step>) returns (n: nat)
    requires Filled(net, steps) && n0 == |steps| < net.Length
    modifies net
    ensures Filled(net, steps + [s]) && n == n0 + 1
  {
    net[n0] := Some(s);
    n := n0 + 1;
  }

  method CreateThree(heap0: Heap, a: Handle, la: Layout, b: Handle, lb: Layout, c: Handle, lc: Layout) returns (heap: Heap)
    requires IsHeap(heap0) && IsLayout(la) && IsLayout(lb) && IsLayout(lc)
    requires a !in heap0 && b !in heap0 && c !in heap0 && a != b && b != c && a != c
    ensures Extends(heap0, heap) && heap.Keys == heap0.Keys + {a, b, c} && Fits(heap, a, la) && Fits(heap, b, lb) && Fits(heap, c, lc)
  {
    hide IsLayout;
    heap := CreateMemory(heap0, a, la);
    heap := CreateMemory(heap, b, lb);
    heap := CreateMemory(heap, c, lc);
  }

  /** Creates an internal memory and a reorder in the next slot when the
      descriptors differ, and nothing otherwise. */
  method PrepareReorder(user: Handle, ul: Layout, pl: Layout, toPrim: bool, internal: Handle, net: Slots, index0: nat, heap0: Heap,
                        ghost steps: seq<Step>)
    returns (prim: Option<Handle>, index: nat, heap: Heap)
    requires IsHeap(heap0) && IsLayout(pl) && internal !in heap0 && Fits(heap0, user, ul)
    requires Filled(net, steps) && |steps| <= index0 && (ul != pl ==> index0 < net.Length)
    modifies net
    ensures Extends(heap0, heap) && heap.Keys <= heap0.Keys + {internal}
    ensures Fits(heap, Chosen(user, ul, pl, internal), pl)
    ensures prim == (if ul == pl then None else Some(internal)) && index == index0 + |MaybeReorder(user, ul, pl, internal, toPrim)|
    ensures Filled(net, steps) && (ul != pl ==> net[index0] == Some(MaybeReorder(user, ul, pl, internal, toPrim)[0]))
    ensures index0 == |steps| ==> Filled(net, steps + MaybeReorder(user, ul, pl, internal, toPrim))
  {
    if ul != pl {
      heap := CreateMemory(heap0, internal, pl);
      net[index0] := Some(if toPrim then Step(Reorder(ul, pl), [user], [internal]) else Step(Reorder(pl, ul), [internal], [user]));
      index := index0 + 1;
      prim := Some(internal);
    } else {
      prim, index, heap := None, index0, heap0;
      assert steps + [] == steps;
    }
  }

  ghost predicate ForwardMemories(h: Heap, c: Choices) {
    && Fits(h, CONV_DST, c.dst) && Fits(h, RELU_DST, c.dst) && Fits(h, LRN_DST, c.dst) && Fits(h, LRN_WS, c.lrnWs)
    && Fits(h, POOL_WS, c.poolWs) && Fits(h, SrcHandle(c), c.src) && Fits(h, WeiHandle(c), c.wei) && Fits(h, DstHandle(c), c.poolDst)
  }

  ghost predicate UserMemories(h: Heap, c: Choices) {
    && Fits(h, USER_SRC, c.userSrc) && Fits(h, USER_WEI, c.userWei) && Fits(h, USER_BIAS, c.bias) && Fits(h, USER_DST, c.userDst)
    && Fits(h, USER_DIFF_DST, c.userDiffDst) && Fits(h, USER_DIFF_WEI, c.userDiffWei)
  }

  /** Pooling goes into a slot that was skipped while the reorder after it was prepared. */
  method BuildPool(c: Choices, k: Kernels, net: Slots, n0: nat, heap0: Heap, ghost steps: seq<Step>) returns (n: nat, heap: Heap)
    requires AreChoices(c) && IsHeap(heap0) && Filled(net, steps) && n0 == |steps| && n0 + 2 <= net.Length
    requires POOL_INTERNAL_DST !in heap0 && Fits(heap0, USER_DST, c.userDst)
    modifies net
    ensures Filled(net, steps + [PoolStep(c, k)] + MaybeReorder(USER_DST, c.userDst, c.poolDst, POOL_INTERNAL_DST, false))
    ensures n == |steps + [PoolStep(c, k)] + MaybeReorder(USER_DST, c.userDst, c.poolDst, POOL_INTERNAL_DST, false)|
    ensures Extends(heap0, heap) && heap.Keys <= heap0.Keys + {POOL_INTERNAL_DST} && Fits(heap, DstHandle(c), c.poolDst)
  {
    n := n0 + 1;
    var prim;
    prim, n, heap := PrepareReorder(USER_DST, c.userDst, c.poolDst, false, POOL_INTERNAL_DST, net, n, heap0, steps);
    n := n - (if prim.Some? then 2 else 1);
    var dst := if prim.Some? then prim.value else USER_DST;
    net[n] := Some(Step(Pool(c, k), [LRN_DST], [dst, POOL_WS]));
    n := n + 1;
    if prim.Some? {
      n := n + 1;
    }
  }

  /** The reorders of the convolution's inputs. */
  method BuildInputs(c: Choices, net: Slots, heap0: Heap) returns (srcHandle: Handle, weiHandle: Handle, n: nat, heap: Heap)
    requires AreChoices(c) && IsHeap(heap0) && UserMemories(heap0, c) && net.Length == SLOTS
    requires CONV_INTERNAL_SRC !in heap0 && CONV_INTERNAL_WEI !in heap0
    modifies net
    ensures var steps := MaybeReorder(USER_SRC, c.userSrc, c.src, CONV_INTERNAL_SRC, true)
                         + MaybeReorder(USER_WEI, c.userWei, c.wei, CONV_INTERNAL_WEI, true);
            Filled(net, steps) && n == |steps|
    ensures srcHandle == SrcHandle(c) && weiHandle == WeiHandle(c)
    ensures Extends(heap0, heap) && heap.Keys <= heap0.Keys + {CONV_INTERNAL_SRC, CONV_INTERNAL_WEI}
    ensures Fits(heap, SrcHandle(c), c.src) && Fits(heap, WeiHandle(c), c.wei)
  {
    hide IsLayout, IsHeap, Filled, SameTensor, Extends, Fits, MaybeReorder;
    AtMostOne(c);
    var src, wei, h;
    ghost var s1 := MaybeReorder(USER_SRC, c.userSrc, c.src, CONV_INTERNAL_SRC, true);
    NoneFilled(net);
    src, n, h := PrepareReorder(USER_SRC, c.userSrc, c.src, true, CONV_INTERNAL_SRC, net, 0, heap0, []);
    assert [] + s1 == s1;
    FitsStays(heap0, h, USER_WEI, c.userWei);
    wei, n, heap := PrepareReorder(USER_WEI, c.userWei, c.wei, true, CONV_INTERNAL_WEI, net, n, h, s1);
    ExtendsMore(heap0, h, heap);
    FitsStays(h, heap, SrcHandle(c), c.src);
    srcHandle := if src.Some? then src.value else USER_SRC;
    weiHandle := if wei.Some? then wei.value else USER_WEI;
  }

  /** The reorders of the convolution's inputs, and the convolution. */
  method BuildConv(c: Choices, k: Kernels, net: Slots, heap0: Heap) returns (n: nat, heap: Heap)
    requires AreChoices(c) && IsHeap(heap0) && UserMemories(heap0, c) && net.Length == SLOTS
    requires CONV_INTERNAL_SRC !in heap0 && CONV_INTERNAL_WEI !in heap0
    modifies net
    ensures var steps := MaybeReorder(USER_SRC, c.userSrc, c.src, CONV_INTERNAL_SRC, true)
                         + MaybeReorder(USER_WEI, c.userWei, c.wei, CONV_INTERNAL_WEI, true) + [ConvStep(c, k)];
            Filled(net, steps) && n == |steps|
    ensures Extends(heap0, heap) && heap.Keys <= heap0.Keys + {CONV_INTERNAL_SRC, CONV_INTERNAL_WEI}
    ensures Fits(heap, SrcHandle(c), c.src) && Fits(heap, WeiHandle(c), c.wei)
  {
    hide AreChoices, IsHeap, Conv, Filled, Extends, Fits, MaybeReorder, SrcHandle, WeiHandle, UserMemories;
    AtMostOne(c);
    var srcHandle, weiHandle;
    srcHandle, weiHandle, n, heap := BuildInputs(c, net, heap0);
    n := AddStep(net, n, Step(Conv(c, k), [srcHandle, weiHandle, USER_BIAS], [CONV_DST]),
                 MaybeReorder(USER_SRC, c.userSrc, c.src, CONV_INTERNAL_SRC, true)
                 + MaybeReorder(USER_WEI, c.userWei, c.wei, CONV_INTERNAL_WEI, true));
  }

  /** ReLU and LRN, with the memories they write. */
  method BuildReluLrn(c: Choices, k: Kernels, net: Slots, n0: nat, heap0: Heap, ghost steps: seq<Step>) returns (n: nat, heap: Heap)
    requires AreChoices(c) && IsHeap(heap0) && Filled(net, steps) && n0 == |steps| && n0 + 2 <= net.Length
    requires forall k | k in [RELU_DST, LRN_DST, LRN_WS, POOL_WS] :: k !in heap0
    modifies net
    ensures Filled(net, steps + [ReluStep(c, k), LrnStep(c, k)]) && n == n0 + 2
    ensures Extends(heap0, heap) && heap.Keys == heap0.Keys + {RELU_DST, LRN_DST, LRN_WS, POOL_WS}
    ensures Fits(heap, RELU_DST, c.dst) && Fits(heap, LRN_DST, c.dst) && Fits(heap, LRN_WS, c.lrnWs) && Fits(heap, POOL_WS, c.poolWs)
  {
    hide IsLayout, IsHeap, Relu, Lrn, Filled, SameTensor;
    var h := CreateThree(heap0, RELU_DST, c.dst, LRN_DST, c.dst, LRN_WS, c.lrnWs);
    n := AddStep(net, n0, Step(Relu(c, k), [CONV_DST], [RELU_DST]), steps);
    n := AddStep(net, n, Step(Lrn(c, k), [RELU_DST], [LRN_DST, LRN_WS]), steps + [ReluStep(c, k)]);
    assert steps + [ReluStep(c, k)] + [LrnStep(c, k)] == steps + [ReluStep(c, k), LrnStep(c, k)];
    heap := CreateMemory(h, POOL_WS, c.poolWs);
  }

  method BuildForward(c: Choices, k: Kernels, heap0: Heap) returns (net: Slots, n: nat, heap: Heap)
    requires AreChoices(c) && IsHeap(heap0) && UserMemories(heap0, c) && forall h | h in heap0 :: h < DIFF_BIAS
    ensures fresh(net) && net.Length == SLOTS && Filled(net, ForwardNet(c, k)) && n == |ForwardNet(c, k)|
    ensures Extends(heap0, heap) && ForwardMemories(heap, c)
    ensures heap.Keys <= heap0.Keys + {CONV_DST, RELU_DST, LRN_DST, LRN_WS, POOL_WS, CONV_INTERNAL_SRC, CONV_INTERNAL_WEI, POOL_INTERNAL_DST}
  {
    hide IsLayout, IsHeap, MaybeReorder, ConvStep, ReluStep, LrnStep, PoolStep, SrcHandle, WeiHandle, DstHandle, SameTensor;
    HandlesApart(c);
    AtMostOne(c);
    net := new Option<Step>[SLOTS](_ => None);
    heap := CreateMemory(heap0, CONV_DST, c.dst);
    n, heap := BuildConv(c, k, net, heap);
    ghost var s1 := MaybeReorder(USER_SRC, c.userSrc, c.src, CONV_INTERNAL_SRC, true)
                    + MaybeReorder(USER_WEI, c.userWei, c.wei, CONV_INTERNAL_WEI, true);
    n, heap := BuildReluLrn(c, k, net, n, heap, s1 + [ConvStep(c, k)]);
    n, heap := BuildPool(c, k, net, n, heap, s1 + [ConvStep(c, k)] + [ReluStep(c, k), LrnStep(c, k)]);
    FourSteps(s1, ConvStep(c, k), ReluStep(c, k), LrnStep(c, k), PoolStep(c, k));
  }

  lemma FourSteps(s: seq<Step>, a: Step, b: Step, c: Step, d: Step)
    ensures s + [a] + [b, c] + [d] == s + [a, b, c, d]
  {
  }

  lemma AtMostOne(c: Choices)
    ensures |MaybeReorder(USER_SRC, c.userSrc, c.src, CONV_INTERNAL_SRC, true)| <= 1
    ensures |MaybeReorder(USER_WEI, c.userWei, c.wei, CONV_INTERNAL_WEI, true)| <= 1
    ensures |MaybeReorder(USER_DIFF_DST, c.userDiffDst, c.poolDst, POOL_INTERNAL_DIFF_DST, true)| <= 1
    ensures |MaybeReorder(SrcHandle(c), c.src, c.bwdSrc, CONV_BWD_INTERNAL_SRC, true)| <= 1
    ensures |MaybeReorder(RELU_DIFF_SRC, c.dst, c.bwdDiffDst, CONV_INTERNAL_DIFF_DST, true)| <= 1
  {
  }

  // The backward net

  ghost predicate BackwardMemories(h: Heap, c: Choices) {
    && Fits(h, POOL_DIFF_SRC, c.dst) && Fits(h, LRN_DIFF_SRC, c.dst) && Fits(h, RELU_DIFF_SRC, c.dst) && Fits(h, DIFF_BIAS, c.diffBias)
    && Fits(h, DiffDstHandle(c), c.poolDst) && Fits(h, BwdSrcHandle(c), c.bwdSrc) && Fits(h, BwdDiffDstHandle(c), c.bwdDiffDst)
    && Fits(h, DiffWeiHandle(c), c.bwdDiffWei)
  }

  /** Backward pooling, LRN and ReLU. */
  method BuildBackwardLayers(c: Choices, k: Kernels, net: Slots, heap0: Heap) returns (n: nat, heap: Heap)
    requires AreChoices(c) && IsHeap(heap0) && Fits(heap0, USER_DIFF_DST, c.userDiffDst) && net.Length == SLOTS
    requires forall k | k in [POOL_INTERNAL_DIFF_DST, POOL_DIFF_SRC, LRN_DIFF_SRC, RELU_DIFF_SRC] :: k !in heap0
    modifies net
    ensures var steps := MaybeReorder(USER_DIFF_DST, c.userDiffDst, c.poolDst, POOL_INTERNAL_DIFF_DST, true)
                         + [PoolBwdStep(c, k), LrnBwdStep(c, k), ReluBwdStep(c, k)];
            Filled(net, steps) && n == |steps|
    ensures Extends(heap0, heap) && heap.Keys <= heap0.Keys + {POOL_INTERNAL_DIFF_DST, POOL_DIFF_SRC, LRN_DIFF_SRC, RELU_DIFF_SRC}
    ensures Fits(heap, DiffDstHandle(c), c.poolDst) && Fits(heap, POOL_DIFF_SRC, c.dst) && Fits(heap, LRN_DIFF_SRC, c.dst)
    ensures Fits(heap, RELU_DIFF_SRC, c.dst)
  {
    hide IsLayout, IsHeap, PoolBwd, LrnBwd, ReluBwd, Filled, SameTensor, Extends, Fits, MaybeReorder;
    AtMostOne(c);
    var prim, h;
    ghost var s := MaybeReorder(USER_DIFF_DST, c.userDiffDst, c.poolDst, POOL_INTERNAL_DIFF_DST, true);
    NoneFilled(net);
    prim, n, h := PrepareReorder(USER_DIFF_DST, c.userDiffDst, c.poolDst, true, POOL_INTERNAL_DIFF_DST, net, 0, heap0, []);
    assert [] + s == s;
    ExtendedIsHeap(heap0, h);
    var diffDst := if prim.Some? then prim.value else USER_DIFF_DST;
    heap := CreateThree(h, POOL_DIFF_SRC, c.dst, LRN_DIFF_SRC, c.dst, RELU_DIFF_SRC, c.dst);
    ExtendsMore(heap0, h, heap);
    FitsStays(h, heap, DiffDstHandle(c), c.poolDst);
    n := AddThree(net, n, Step(PoolBwd(c, k), [diffDst, POOL_WS], [POOL_DIFF_SRC]),
                  Step(LrnBwd(c, k), [RELU_DST, POOL_DIFF_SRC, LRN_WS], [LRN_DIFF_SRC]),
                  Step(ReluBwd(c, k), [CONV_DST, LRN_DIFF_SRC], [RELU_DIFF_SRC]), s);
  }

  method AddThree(net: Slots, n0: nat, a: Step, b: Step, c: Step, ghost steps: seq<Step>) returns (n: nat)
    requires Filled(net, steps) && n0 == |steps| && n0 + 3 <= net.Length
    modifies net
    ensures Filled(net, steps + [a, b, c]) && n == n0 + 3
  {
    hide Filled;
    n := AddStep(net, n0, a, steps);
    n := AddStep(net, n, b, steps + [a]);
    n := AddStep(net, n, c, steps + [a] + [b]);
    ThreeSteps(steps, a, b, c);
  }

  lemma NoneFilled(net: Slots)
    ensures Filled(net, [])
  {
  }

  lemma ThreeSteps(s: seq<Step>, a: Step, b: Step, c: Step)
    ensures s + [a] + [b] + [c] == s + [a, b, c]
  {
  }

  /** The reorders around the backward convolution, which again goes into a slot
      skipped while the reorder after it was prepared. */
  method BuildConvBwd(c: Choices, k: Kernels, net: Slots, n0: nat, heap0: Heap, ghost steps: seq<Step>) returns (n: nat, heap: Heap)
    requires AreChoices(c) && IsHeap(heap0) && Filled(net, steps) && n0 == |steps| && n0 + 4 <= net.Length
    requires Fits(heap0, SrcHandle(c), c.src) && Fits(heap0, RELU_DIFF_SRC, c.dst) && Fits(heap0, USER_DIFF_WEI, c.userDiffWei)
    requires forall k | k in [CONV_BWD_INTERNAL_SRC, CONV_INTERNAL_DIFF_DST, CONV_INTERNAL_DIFF_WEI, DIFF_BIAS] :: k !in heap0
    modifies net
    ensures var all := steps + MaybeReorder(SrcHandle(c), c.src, c.bwdSrc, CONV_BWD_INTERNAL_SRC, true)
                       + MaybeReorder(RELU_DIFF_SRC, c.dst, c.bwdDiffDst, CONV_INTERNAL_DIFF_DST, true) + [ConvBwdStep(c, k)]
                       + MaybeReorder(USER_DIFF_WEI, c.userDiffWei, c.bwdDiffWei, CONV_INTERNAL_DIFF_WEI, false);
            Filled(net, all) && n == |all|
    ensures Extends(heap0, heap)
    ensures Fits(heap, BwdSrcHandle(c), c.bwdSrc) && Fits(heap, BwdDiffDstHandle(c), c.bwdDiffDst) && Fits(heap, DiffWeiHandle(c), c.bwdDiffWei)
    ensures Fits(heap, DIFF_BIAS, c.diffBias)
  {
    hide IsLayout, IsHeap, ConvBwd, SrcHandle, Filled, SameTensor, Extends, Fits, MaybeReorder;
    AtMostOne(c);
    var src, diffDst, h1, h2;
    ghost var r1 := MaybeReorder(SrcHandle(c), c.src, c.bwdSrc, CONV_BWD_INTERNAL_SRC, true);
    ghost var r2 := MaybeReorder(RELU_DIFF_SRC, c.dst, c.bwdDiffDst, CONV_INTERNAL_DIFF_DST, true);
    src, n, h1 := PrepareReorder(SrcHandle(c), c.src, c.bwdSrc, true, CONV_BWD_INTERNAL_SRC, net, n0, heap0, steps);
    FitsStays(heap0, h1, RELU_DIFF_SRC, c.dst);
    diffDst, n, h2 := PrepareReorder(RELU_DIFF_SRC, c.dst, c.bwdDiffDst, true, CONV_INTERNAL_DIFF_DST, net, n, h1, steps + r1);
    ExtendsMore(heap0, h1, h2);
    FitsStays(heap0, h2, USER_DIFF_WEI, c.userDiffWei);
    FitsStays(h1, h2, BwdSrcHandle(c), c.bwdSrc);
    var srcHandle := if src.Some? then src.value else SrcHandle(c);
    var diffDstHandle := if diffDst.Some? then diffDst.value else RELU_DIFF_SRC;
    n, heap := BuildConvBwdOutput(c, k, net, n, h2, srcHandle, diffDstHandle, steps + r1 + r2);
    ExtendsMore(heap0, h2, heap);
    FitsStays(h2, heap, BwdSrcHandle(c), c.bwdSrc);
    FitsStays(h2, heap, BwdDiffDstHandle(c), c.bwdDiffDst);
  }

  method BuildConvBwdOutput(c: Choices, k: Kernels, net: Slots, n0: nat, heap0: Heap, srcHandle: Handle, diffDstHandle: Handle,
                            ghost steps: seq<Step>)
    returns (n: nat, heap: Heap)
    requires AreChoices(c) && IsHeap(heap0) && Filled(net, steps) && n0 == |steps| && n0 + 2 <= net.Length
    requires srcHandle == BwdSrcHandle(c) && diffDstHandle == BwdDiffDstHandle(c)
    requires Fits(heap0, USER_DIFF_WEI, c.userDiffWei) && CONV_INTERNAL_DIFF_WEI !in heap0 && DIFF_BIAS !in heap0
    modifies net
    ensures var all := steps + [ConvBwdStep(c, k)] + MaybeReorder(USER_DIFF_WEI, c.userDiffWei, c.bwdDiffWei, CONV_INTERNAL_DIFF_WEI, false);
            Filled(net, all) && n == |all|
    ensures Extends(heap0, heap) && Fits(heap, DiffWeiHandle(c), c.bwdDiffWei) && Fits(heap, DIFF_BIAS, c.diffBias)
  {
    hide IsLayout, IsHeap, ConvBwd, SameTensor, BwdSrcHandle, BwdDiffDstHandle;
    var diffWei;
    n := n0 + 1;
    diffWei, n, heap := PrepareReorder(USER_DIFF_WEI, c.userDiffWei, c.bwdDiffWei, false, CONV_INTERNAL_DIFF_WEI, net, n, heap0, steps);
    n := n - (if diffWei.Some? then 2 else 1);
    heap := CreateMemory(heap, DIFF_BIAS, c.diffBias);
    var diffWeiHandle := if diffWei.Some? then diffWei.value else USER_DIFF_WEI;
    net[n] := Some(Step(ConvBwd(c, k), [srcHandle, diffDstHandle], [diffWeiHandle, DIFF_BIAS]));
    n := n + 1;
    if diffWei.Some? {
      n := n + 1;
    }
  }

  method BuildBackward(c: Choices, k: Kernels, heap0: Heap) returns (net: Slots, n: nat, heap: Heap)
    requires AreChoices(c) && IsHeap(heap0) && UserMemories(heap0, c) && ForwardMemories(heap0, c)
    requires forall h | h in heap0 :: h < DIFF_BIAS || h in {CONV_DST, RELU_DST, LRN_DST, LRN_WS, POOL_WS, CONV_INTERNAL_SRC, CONV_INTERNAL_WEI, POOL_INTERNAL_DST}
    ensures fresh(net) && net.Length == SLOTS && Filled(net, BackwardNet(c, k)) && n == |BackwardNet(c, k)|
    ensures Extends(heap0, heap) && BackwardMemories(heap, c)
  {
    hide IsLayout, IsHeap, MaybeReorder, PoolBwdStep, LrnBwdStep, ReluBwdStep, ConvBwdStep, SrcHandle, DiffDstHandle, BwdSrcHandle, BwdDiffDstHandle,
      DiffWeiHandle, SameTensor;
    HandlesApart(c);
    AtMostOne(c);
    net := new Option<Step>[SLOTS](_ => None);
    n, heap := BuildBackwardLayers(c, k, net, heap0);
    ghost var s := MaybeReorder(USER_DIFF_DST, c.userDiffDst, c.poolDst, POOL_INTERNAL_DIFF_DST, true)
                   + [PoolBwdStep(c, k), LrnBwdStep(c, k), ReluBwdStep(c, k)];
    n, heap := BuildConvBwd(c, k, net, n, heap, s);
  }

  // Execution

  function Steps(slots: seq<Option<Step>>): seq<Step>
    requires forall i | 0 <= i < |slots| :: slots[i].Some?
  {
    seq(|slots|, i requires 0 <= i < |slots| => slots[i].value)
  }

  method RunSlots(net: Slots, n: nat, h0: Heap, ghost steps: seq<Step>) returns (r: Option<Heap>)
    requires IsHeap(h0) && Filled(net, steps) && n == |steps|
    ensures r == Run(steps, h0)
  {
    assert Steps(net[..n]) == steps;
    r := RunNet(Steps(net[..n]), h0);
  }

  /** Builds both nets over the user's data and trains.  It never fails, and the
      user ends up with what training without layouts gives. */
  method SimpleNet(c: Choices, k: Kernels, u: Updates, heap0: Heap, iterations: nat, ghost src: Tensor, ghost p: Params)
    returns (r: Option<Heap>)
    requires AreChoices(c) && AreKernels(c, k) && AreUpdates(c, u)
    requires IsHeap(heap0) && UserMemories(heap0, c) && forall h | h in heap0 :: h < DIFF_BIAS
    requires Holds(heap0, USER_SRC, c.userSrc, src) && Holds(heap0, USER_WEI, c.userWei, p.wei)
    requires Holds(heap0, USER_BIAS, c.bias, p.bias) && Holds(heap0, USER_DIFF_DST, c.userDiffDst, p.diff)
    ensures r.Some? && Trained(r.value, c, src, ImprovedTimes(k, u, src, p, iterations))
    ensures iterations > 0 ==> Delivered(r.value, c, k, u, src, ImprovedTimes(k, u, src, p, iterations - 1))
  {
    hide AreChoices, AreKernels, AreUpdates, Holds, ForwardNet, BackwardNet, Run, Filled, Ready, ForwardMemories, BackwardMemories, UserMemories,
      UpdateDiff, UpdateWeights, Improved, Delivered;
    var fwd, nFwd, h1 := BuildForward(c, k, heap0);
    UserMemoriesStay(heap0, h1, c);
    var bwd, nBwd, h := BuildBackward(c, k, h1);
    AllReady(heap0, h1, h, c, src, p);
    ghost var start := h;
    for i := 0 to iterations
      invariant IsHeap(h) && IsHeap(start) && Train(ForwardNet(c, k), BackwardNet(c, k), u, start, i) == Some(h)
      invariant Filled(fwd, ForwardNet(c, k)) && Filled(bwd, BackwardNet(c, k))
    {
      ghost var next := TrainingRuns(c, k, u, start, src, p, i + 1);
      var forward := RunSlots(fwd, nFwd, h, ForwardNet(c, k));
      if forward.None? {
        assert false;
      }
      var backward := RunSlots(bwd, nBwd, UpdateDiff(u, forward.value), BackwardNet(c, k));
      if backward.None? {
        assert false;
      }
      h := UpdateWeights(u, backward.value);
    }
    ghost var last := TrainingRuns(c, k, u, start, src, p, iterations);
    r := Some(h);
  }

  lemma UserMemoriesStay(h: Heap, g: Heap, c: Choices)
    requires UserMemories(h, c) && Extends(h, g)
    ensures UserMemories(g, c) && IsHeap(g)
  {
  }

  lemma {:induction false} AllReady(h0: Heap, h1: Heap, h: Heap, c: Choices, src: Tensor, p: Params)
    requires UserMemories(h0, c) && Extends(h0, h1) && Extends(h1, h) && ForwardMemories(h1, c) && BackwardMemories(h, c)
    requires Holds(h0, USER_SRC, c.userSrc, src) && Holds(h0, USER_WEI, c.userWei, p.wei)
    requires Holds(h0, USER_BIAS, c.bias, p.bias) && Holds(h0, USER_DIFF_DST, c.userDiffDst, p.diff)
    ensures Trained(h, c, src, p) && IsHeap(h)
  {
    hide IsMemory, Read, IsHeap, SrcHandle, WeiHandle, DstHandle, DiffDstHandle, BwdSrcHandle, BwdDiffDstHandle, DiffWeiHandle;
  }
}
