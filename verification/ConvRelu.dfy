/** Three ways to run a convolution followed by ReLU: in the user's layouts, in
    the layouts the convolution prefers, and with ReLU fused into it. */
module ConvRelu {
  import opened Layouts

  /** A memory object; several variables may name the same one. */
  class MemoryObject {
    const layout: Layout
    var written: bool
    var buffer: Tensor

    ghost predicate Valid()
      reads this
    {
      IsLayout(layout) && |buffer| == layout.size
    }

    /** The logical tensor it holds. */
    ghost function Logical(): Tensor
      requires Valid()
      reads this
    {
      Gather(layout, buffer)
    }

    constructor (l: Layout)
      requires IsLayout(l)
      ensures Valid() && layout == l && !written
    {
      layout, written, buffer := l, false, seq(l.size, _ => 0.0);
    }

    method Store(t: Tensor)
      requires Valid() && |t| == |layout.offsets|
      modifies this
      ensures Valid() && written && Logical() == t
    {
      ghost var before := buffer;
      for i := 0 to |t|
        invariant Valid() && buffer == ScatterFirst(layout, t, before, i)
      {
        buffer := buffer[layout.offsets[i] := t[i]];
      }
      written := true;
      GatherUndoesScatter(layout, t, before);
    }

    method Load() returns (t: Tensor)
      requires Valid()
      ensures t == Logical()
    {
      t := Gather(layout, buffer);
    }
  }

  function Positive(x: real): real {
    if x > 0.0 then x else 0.0
  }

  function Relu(t: Tensor): Tensor {
    seq(|t|, i requires 0 <= i < |t| => Positive(t[i]))
  }

  /** Every element becomes the least number that is neither below it nor
      negative. */
  lemma ReluIsMax(t: Tensor, i: nat)
    requires i < |t|
    ensures |Relu(t)| == |t| && Relu(t)[i] >= t[i] && Relu(t)[i] >= 0.0 && (Relu(t)[i] == t[i] || Relu(t)[i] == 0.0)
  {
  }

  /** ReLU may be applied to a buffer without knowing its layout. */
  lemma ReluIgnoresLayout(l: Layout, buffer: Tensor)
    requires InBounds(l) && |buffer| == l.size
    ensures Gather(l, Relu(buffer)) == Relu(Gather(l, buffer))
  {
  }

  // Primitives

  /** The convolution as created: its descriptors and whether ReLU is fused into it. */
  datatype ConvDesc = ConvDesc(src: Layout, wei: Layout, dst: Layout, fused: bool)

  type Kernel = (Tensor, Tensor) -> Tensor

  ghost predicate Computes(conv: Kernel, n: nat) {
    forall x, y :: |conv(x, y)| == n
  }

  method ExecuteConv(pd: ConvDesc, conv: Kernel, src: MemoryObject, wei: MemoryObject, dst: MemoryObject)
    requires src.Valid() && wei.Valid() && dst.Valid() && dst != src && dst != wei
    requires src.layout == pd.src && wei.layout == pd.wei && dst.layout == pd.dst && src.written && wei.written
    requires Computes(conv, |pd.dst.offsets|)
    modifies dst
    ensures dst.Valid() && dst.written
    ensures dst.Logical() == if pd.fused then Relu(conv(src.Logical(), wei.Logical())) else conv(src.Logical(), wei.Logical())
  {
    var x := src.Load();
    var y := wei.Load();
    dst.Store(if pd.fused then Relu(conv(x, y)) else conv(x, y));
  }

  method ExecuteReorder(from: MemoryObject, to: MemoryObject)
    requires from.Valid() && to.Valid() && from != to && from.written && |from.layout.offsets| == |to.layout.offsets|
    modifies to
    ensures to.Valid() && to.written && to.Logical() == from.Logical()
  {
    var t := from.Load();
    to.Store(t);
  }

  /** In place, on the buffer as it lies. */
  method ExecuteRelu(data: MemoryObject)
    requires data.Valid() && data.written
    modifies data
    ensures data.Valid() && data.written && data.Logical() == Relu(old(data.Logical()))
  {
    ReluIgnoresLayout(data.layout, data.buffer);
    data.buffer := Relu(data.buffer);
  }

  // The three implementations

  /** The user's memories: sources written, the destination apart from them. */
  ghost predicate UserMemories(src: MemoryObject, wei: MemoryObject, dst: MemoryObject)
    reads src, wei, dst
  {
    src.Valid() && wei.Valid() && dst.Valid() && src.written && wei.written && dst != src && dst != wei
  }

  /** The convolution takes the same tensors as the user, in layouts of its own. */
  ghost predicate Prefers(pd: ConvDesc, src: MemoryObject, wei: MemoryObject, dst: MemoryObject) {
    && IsLayout(pd.src) && IsLayout(pd.wei) && IsLayout(pd.dst)
    && |pd.src.offsets| == |src.layout.offsets| && |pd.wei.offsets| == |wei.layout.offsets| && |pd.dst.offsets| == |dst.layout.offsets|
  }

  method ConvReluNaive(conv: Kernel, src: MemoryObject, wei: MemoryObject, dst: MemoryObject)
    requires UserMemories(src, wei, dst) && Computes(conv, |dst.layout.offsets|)
    modifies dst
    ensures UserMemories(src, wei, dst) && dst.written && dst.Logical() == Relu(conv(src.Logical(), wei.Logical()))
  {
    var pd := ConvDesc(src.layout, wei.layout, dst.layout, false);
    ExecuteConv(pd, conv, src, wei, dst);
    ExecuteRelu(dst);
  }

  /** A memory in the layout wanted: the given one, or a new one it is reordered to. */
  method Prepare(user: MemoryObject, wanted: Layout) returns (m: MemoryObject)
    requires user.Valid() && user.written && IsLayout(wanted) && |wanted.offsets| == |user.layout.offsets|
    ensures m.Valid() && m.written && m.layout == wanted && m.Logical() == user.Logical()
    ensures m == user || fresh(m)
  {
    m := user;
    if wanted != user.layout {
      m := new MemoryObject(wanted);
      ExecuteReorder(user, m);
    }
  }

  method ConvReluBlocked(conv: Kernel, pd: ConvDesc, src: MemoryObject, wei: MemoryObject, dst: MemoryObject)
    requires UserMemories(src, wei, dst) && Prefers(pd, src, wei, dst) && !pd.fused && Computes(conv, |dst.layout.offsets|)
    modifies dst
    ensures UserMemories(src, wei, dst) && dst.written && dst.Logical() == Relu(conv(src.Logical(), wei.Logical()))
  {
    var convSrc := Prepare(src, pd.src);
    var convWei := Prepare(wei, pd.wei);
    var convDst := dst;
    if pd.dst != dst.layout {
      convDst := new MemoryObject(pd.dst);
    }
    ExecuteConv(pd, conv, convSrc, convWei, convDst);
    ExecuteRelu(convDst);
    if pd.dst != dst.layout {
      ExecuteReorder(convDst, dst);
    }
  }

  method ConvReluFused(conv: Kernel, pd: ConvDesc, src: MemoryObject, wei: MemoryObject, dst: MemoryObject)
    requires UserMemories(src, wei, dst) && Prefers(pd, src, wei, dst) && pd.fused && Computes(conv, |dst.layout.offsets|)
    modifies dst
    ensures UserMemories(src, wei, dst) && dst.written && dst.Logical() == Relu(conv(src.Logical(), wei.Logical()))
  {
    var convSrc := Prepare(src, pd.src);
    var convWei := Prepare(wei, pd.wei);
    var convDst := dst;
    if pd.dst != dst.layout {
      convDst := new MemoryObject(pd.dst);
    }
    ExecuteConv(pd, conv, convSrc, convWei, convDst);
    if pd.dst != dst.layout {
      ExecuteReorder(convDst, dst);
    }
  }

  /** Runs one implementation, or all one after another on the same destination;
      an unknown name is an error and nothing is run. */
  method PerformanceProfiling(implementation: string, conv: Kernel, blocked: ConvDesc, fused: ConvDesc,
                              src: MemoryObject, wei: MemoryObject, dst: MemoryObject)
    returns (ok: bool)
    requires UserMemories(src, wei, dst) && Computes(conv, |dst.layout.offsets|)
    requires Prefers(blocked, src, wei, dst) && !blocked.fused && Prefers(fused, src, wei, dst) && fused.fused
    modifies dst
    ensures ok <==> implementation in ["validation", "naive", "blocked", "fused"]
    ensures ok ==> UserMemories(src, wei, dst) && dst.written && dst.Logical() == Relu(conv(src.Logical(), wei.Logical()))
    ensures !ok ==> unchanged(dst)
  {
    if !(implementation == "validation" || implementation == "naive" || implementation == "blocked" || implementation == "fused") {
      return false;
    }
    if implementation == "naive" || implementation == "validation" {
      ConvReluNaive(conv, src, wei, dst);
    }
    if implementation == "blocked" || implementation == "validation" {
      ConvReluBlocked(conv, blocked, src, wei, dst);
    }
    if implementation == "fused" || implementation == "validation" {
      ConvReluFused(conv, fused, src, wei, dst);
    }
    ok := true;
  }
}
