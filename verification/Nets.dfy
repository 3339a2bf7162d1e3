/** Memories with layouts, primitives that read and write them, and nets of
    primitives executed in order. */
module Nets {
  import opened Common
  import opened Layouts

  type Handle = nat

  /** A memory: its descriptor, whether it has been written, and its buffer. */
  datatype Memory = Memory(layout: Layout, written: bool, buffer: Tensor)

  type Heap = map<Handle, Memory>

  predicate IsMemory(m: Memory) {
    IsLayout(m.layout) && |m.buffer| == m.layout.size
  }

  predicate IsHeap(h: Heap) {
    forall k | k in h :: IsMemory(h[k])
  }

  /** A primitive fixes the descriptors of its memories and computes logical
      tensors from logical tensors. */
  datatype Primitive = Primitive(ins: seq<Layout>, outs: seq<Layout>, compute: seq<Tensor> -> seq<Tensor>)

  ghost predicate IsPrimitive(p: Primitive) {
    && (forall k | 0 <= k < |p.outs| :: IsLayout(p.outs[k]))
    && (forall xs :: |p.compute(xs)| == |p.outs|)
    && (forall xs, k | 0 <= k < |p.outs| :: |p.compute(xs)[k]| == |p.outs[k].offsets|)
  }

  datatype Step = Step(prim: Primitive, ins: seq<Handle>, outs: seq<Handle>)

  /** Each memory has the descriptor the primitive was created with, what is
      read has been written, and no memory is written twice. */
  predicate CanRun(s: Step, h: Heap) {
    && |s.ins| == |s.prim.ins| && |s.outs| == |s.prim.outs| && Distinct(s.outs)
    && (forall k | 0 <= k < |s.ins| :: s.ins[k] in h && h[s.ins[k]].layout == s.prim.ins[k] && h[s.ins[k]].written)
    && (forall k | 0 <= k < |s.outs| :: s.outs[k] in h && h[s.outs[k]].layout == s.prim.outs[k])
  }

  function Read(m: Memory): Tensor
    requires IsMemory(m)
  {
    Gather(m.layout, m.buffer)
  }

  function Write(m: Memory, t: Tensor): (w: Memory)
    requires IsMemory(m) && |t| == |m.layout.offsets|
    ensures IsMemory(w)
  {
    Memory(m.layout, true, Scatter(m.layout, t, m.buffer))
  }

  /** Writes that do not fit a memory are not made. */
  function WriteAll(h: Heap, outs: seq<Handle>, ts: seq<Tensor>): (g: Heap)
    requires IsHeap(h) && |outs| == |ts|
    ensures IsHeap(g)
  {
    if outs == [] then h
    else
      var n := |outs| - 1;
      var g := WriteAll(h, outs[..n], ts[..n]);
      if outs[n] in g && |ts[n]| == |g[outs[n]].layout.offsets| then g[outs[n] := Write(g[outs[n]], ts[n])] else g
  }

  /** One primitive; none if it is handed memories it cannot take. */
  function Execute(s: Step, h: Heap): (r: Option<Heap>)
    requires IsHeap(h)
    ensures r.Some? ==> IsHeap(r.value)
  {
    if !CanRun(s, h) then None
    else
      var xs := seq(|s.ins|, k requires 0 <= k < |s.ins| => Read(h[s.ins[k]]));
      var ys := s.prim.compute(xs);
      if |ys| == |s.outs| then Some(WriteAll(h, s.outs, ys)) else None
  }

  function Run(net: seq<Step>, h: Heap): (r: Option<Heap>)
    requires IsHeap(h)
    ensures r.Some? ==> IsHeap(r.value)
  {
    if net == [] then Some(h)
    else
      match Run(net[..|net| - 1], h)
      case None => None
      case Some(g) => Execute(net[|net| - 1], g)
  }

  lemma {:induction false} RunOfSum(a: seq<Step>, b: seq<Step>, h: Heap)
    requires IsHeap(h)
    ensures Run(a + b, h) == if Run(a, h).Some? then Run(b, Run(a, h).value) else None
    decreases |b|
  {
    hide Execute;
    if b == [] {
      assert a + b == a;
    } else {
      var n := |b| - 1;
      RunOfSum(a, b[..n], h);
      assert (a + b)[..|a + b| - 1] == a + b[..n];
    }
  }

  method RunNet(net: seq<Step>, h0: Heap) returns (r: Option<Heap>)
    requires IsHeap(h0)
    ensures r == Run(net, h0)
  {
    var h := h0;
    for i := 0 to |net|
      invariant IsHeap(h) && Run(net[..i], h0) == Some(h)
    {
      assert net[..i + 1][..i] == net[..i];
      var next := Execute(net[i], h);
      if next.None? {
        RunStaysNone(net, i + 1, h0);
        return None;
      }
      h := next.value;
    }
    assert net[..|net|] == net;
    r := Some(h);
  }

  lemma {:induction false} RunStaysNone(net: seq<Step>, i: nat, h: Heap)
    requires IsHeap(h) && i <= |net| && Run(net[..i], h).None?
    ensures Run(net, h).None?
  {
    assert net == net[..i] + net[i..];
    RunOfSum(net[..i], net[i..], h);
  }

  // What a memory holds

  /** The memory has this descriptor and holds this logical tensor. */
  ghost predicate Holds(h: Heap, k: Handle, l: Layout, t: Tensor) {
    k in h && h[k].layout == l && h[k].written && IsMemory(h[k]) && Read(h[k]) == t
  }

  /** Only these memories may have changed, and no descriptor has. */
  ghost predicate Keeps(h: Heap, g: Heap, changed: seq<Handle>) {
    && h.Keys == g.Keys
    && (forall k | k in h :: g[k].layout == h[k].layout && (k !in changed ==> g[k] == h[k]))
  }

  lemma {:induction false} WriteOne(h: Heap, k: Handle, l: Layout, t: Tensor)
    requires IsHeap(h) && k in h && h[k].layout == l && |t| == |l.offsets|
    ensures var g := h[k := Write(h[k], t)];
            IsHeap(g) && Holds(g, k, l, t) && Keeps(h, g, [k])
  {
    hide Gather, Scatter, IsLayout;
    GatherUndoesScatter(l, t, h[k].buffer);
  }

  lemma KeepsMore(h: Heap, g: Heap, f: Heap, a: seq<Handle>, b: seq<Handle>)
    requires Keeps(h, g, a) && Keeps(g, f, b)
    ensures Keeps(h, f, a + b)
  {
  }

  lemma {:induction false} WriteAllWrites(h: Heap, outs: seq<Handle>, ls: seq<Layout>, ts: seq<Tensor>)
    requires IsHeap(h) && Distinct(outs) && |outs| == |ls| == |ts|
    requires forall k | 0 <= k < |outs| :: outs[k] in h && h[outs[k]].layout == ls[k] && |ts[k]| == |ls[k].offsets|
    ensures var g := WriteAll(h, outs, ts);
            && (forall k | 0 <= k < |outs| :: Holds(g, outs[k], ls[k], ts[k]))
            && Keeps(h, g, outs)
  {
    hide IsLayout, Gather, Scatter, Write, IsMemory, Read;
    if outs != [] {
      var n := |outs| - 1;
      WriteAllWrites(h, outs[..n], ls[..n], ts[..n]);
      var g := WriteAll(h, outs[..n], ts[..n]);
      WriteOne(g, outs[n], ls[n], ts[n]);
      var f := g[outs[n] := Write(g[outs[n]], ts[n])];
      KeepsMore(h, g, f, outs[..n], [outs[n]]);
      assert outs[..n] + [outs[n]] == outs;
      forall k | 0 <= k < n
        ensures Holds(f, outs[k], ls[k], ts[k])
      {
        assert Holds(g, outs[..n][k], ls[..n][k], ts[..n][k]);
      }
    }
  }

  /** A primitive whose inputs hold these tensors leaves what it computes from
      them in its outputs, and nothing else changes. */
  lemma {:induction false} ExecuteComputes(s: Step, h: Heap, xs: seq<Tensor>) returns (g: Heap)
    requires IsHeap(h) && IsPrimitive(s.prim) && Distinct(s.outs)
    requires |xs| == |s.ins| == |s.prim.ins| && |s.outs| == |s.prim.outs|
    requires forall k | 0 <= k < |s.ins| :: Holds(h, s.ins[k], s.prim.ins[k], xs[k])
    requires forall k | 0 <= k < |s.outs| :: s.outs[k] in h && h[s.outs[k]].layout == s.prim.outs[k]
    ensures Execute(s, h) == Some(g) && IsHeap(g)
    ensures forall k | 0 <= k < |s.outs| :: Holds(g, s.outs[k], s.prim.outs[k], s.prim.compute(xs)[k])
    ensures Keeps(h, g, s.outs)
  {
    hide WriteAll;
    var ins := seq(|s.ins|, k requires 0 <= k < |s.ins| => Read(h[s.ins[k]]));
    assert ins == xs;
    var ys := s.prim.compute(xs);
    g := WriteAll(h, s.outs, ys);
    WriteAllWrites(h, s.outs, s.prim.outs, ys);
  }
}
