/** The zero-point compensation of the int8 source, and the decoder loop: attention,
    the net, and sliding handles. */
module DecoderRun {
  import opened Common
  import opened FlatIndex
  import opened RealSums
  import opened DecoderAttention
  import opened DecoderContext

  // Compensation

  /** The sum of m entries from position p on. */
  function RunSum(a: seq<int>, p: int, m: nat): int {
    if m == 0 then 0 else RunSum(a, p, m - 1) + (if 0 <= p + m - 1 < |a| then a[p + m - 1] else 0)
  }

  lemma {:induction false} RunIsSum(a: seq<int>, p: nat, m: nat, f: int -> real)
    requires p + m <= |a| && forall i | 0 <= i < m :: f(i) == a[p + i] as real
    ensures RunSum(a, p, m) as real == Sum(m, f)
  {
    if m > 0 {
      RunIsSum(a, p, m - 1, f);
      assert f(m - 1) == a[p + (m - 1)] as real;
    }
  }

  /** Entry i of the result is the sum of the i-th run of consecutive entries. */
  method ComputeSumOfRows(a: array<int>, rows: nat, cols: nat, reduced: array<int>)
    requires a.Length == cols * rows && reduced.Length == cols && a != reduced
    modifies reduced
    ensures forall i | 0 <= i < cols :: reduced[i] == RunSum(a[..], Cell(i, 0, rows), rows)
  {
    hide Cell;
    for i := 0 to cols
      invariant forall k | 0 <= k < i :: reduced[k] == RunSum(a[..], Cell(k, 0, rows), rows)
    {
      reduced[i] := 0;
      for j := 0 to rows
        invariant forall k | 0 <= k < i :: reduced[k] == RunSum(a[..], Cell(k, 0, rows), rows)
        invariant reduced[i] == RunSum(a[..], Cell(i, 0, rows), j)
      {
        var at := Index(i, j, cols, rows);
        CellSplits(i, j, rows);
        reduced[i] := reduced[i] + a[at];
      }
    }
  }

  lemma CellSplits(i: int, j: int, n: int)
    ensures Cell(i, j, n) == Cell(i, 0, n) + j
  {
  }

  /** Weights stored row by row: row c, column k. */
  function Weight2(a: seq<int>, n: int): (int, int) -> real {
    (c, k) => At2(a, c, k, n) as real
  }

  function At2(a: seq<int>, i: int, j: int, n: int): int {
    if 0 <= Cell(i, j, n) < |a| then a[Cell(i, j, n)] else 0
  }

  function ColumnSum(a: seq<int>, n: nat, k: int): real {
    Sum(n, c => Weight2(a, n)(c, k))
  }

  /** A row of quantised sources: x * scale + shift. */
  function Quantised(x: int -> real, scale: real, shift: real): int -> real {
    c => x(c) * scale + shift
  }

  function Times(x: int -> real, a: seq<int>, n: int, k: int): int -> real {
    c => x(c) * Weight2(a, n)(c, k)
  }

  /** Source row x times column k of the weights. */
  function Product(x: int -> real, a: seq<int>, n: nat, k: int): real {
    Sum(n, Times(x, a, n, k))
  }

  function ColumnOf(a: seq<int>, n: int, k: int): int -> real {
    c => Weight2(a, n)(c, k)
  }

  lemma {:induction false} QuantisedProduct(x: int -> real, scale: real, shift: real, a: seq<int>, n: nat, k: int)
    ensures Product(Quantised(x, scale, shift), a, n, k) == scale * Product(x, a, n, k) + shift * ColumnSum(a, n, k)
  {
    hide Weight2;
    var f, g := Scaled(scale, Times(x, a, n, k)), Scaled(shift, ColumnOf(a, n, k));
    forall c | 0 <= c < n
      ensures Times(Quantised(x, scale, shift), a, n, k)(c) == Added(f, g)(c)
    {
      Distribute(x(c), scale, shift, Weight2(a, n)(c, k));
    }
    SumExt(n, Times(Quantised(x, scale, shift), a, n, k), Added(f, g));
    SumAdd(n, f, g);
    SumScale(n, scale, Times(x, a, n, k));
    SumScale(n, shift, ColumnOf(a, n, k));
    SumExt(n, ColumnOf(a, n, k), c => Weight2(a, n)(c, k));
  }

  lemma Distribute(x: real, scale: real, shift: real, w: real)
    ensures (x * scale + shift) * w == scale * (x * w) + shift * w
  {
  }

  /** The dequantised product with the compensation the example subtracts. */
  function Compensated(x: int -> real, scale: real, shift: real, wscale: real, a: seq<int>, n: nat, k: int): real
    requires scale != 0.0 && wscale != 0.0
  {
    (Product(Quantised(x, scale, shift), a, n, k) - shift * (RunSum(a, Cell(k, 0, n), n) as real)) / (scale * wscale)
  }

  lemma ExactIff(p: real, scale: real, shift: real, wscale: real, col: real, row: real)
    requires scale != 0.0 && wscale != 0.0
    ensures scale * wscale != 0.0
    ensures (scale * p + shift * col - shift * row) / (scale * wscale) == p / wscale <==> shift * (col - row) == 0.0
  {
    var d := shift * (col - row);
    assert scale * p + shift * col - shift * row == scale * p + d;
    SplitFraction(p, d, scale, wscale);
  }

  lemma SplitFraction(p: real, d: real, scale: real, wscale: real)
    requires scale != 0.0 && wscale != 0.0
    ensures scale * wscale != 0.0
    ensures (scale * p + d) / (scale * wscale) == p / wscale <==> d == 0.0
  {
    var s := scale * wscale;
    var q := (scale * p + d) / s;
    assert q * s == scale * p + d;
    assert (p / wscale) * s == scale * p;
  }

  /** The compensation removes the shift exactly when there is no shift or the
      k-th row and the k-th column of the weights have the same sum. */
  lemma {:induction false} CompensationIsExactIff(x: int -> real, scale: real, shift: real, wscale: real, a: seq<int>, n: nat, k: int)
    requires scale != 0.0 && wscale != 0.0
    ensures Compensated(x, scale, shift, wscale, a, n, k) == Product(x, a, n, k) / wscale <==>
            shift == 0.0 || ColumnSum(a, n, k) == RunSum(a, Cell(k, 0, n), n) as real
  {
    hide Product, ColumnSum, Cell, RunSum;
    QuantisedProduct(x, scale, shift, a, n, k);
    ExactIff(Product(x, a, n, k), scale, shift, wscale, ColumnSum(a, n, k), RunSum(a, Cell(k, 0, n), n) as real);
  }

  /** Weights for which it is not. */
  lemma CompensationCanFail(x: int -> real)
    ensures Compensated(x, 1.0, 1.0, 1.0, [0, 1, 0, 0], 2, 0) != Product(x, [0, 1, 0, 0], 2, 0)
  {
    var a := [0, 1, 0, 0];
    CompensationIsExactIff(x, 1.0, 1.0, 1.0, a, 2, 0);
    assert RunSum(a, 0, 2) == RunSum(a, 0, 1) + 1 && RunSum(a, 0, 1) == RunSum(a, 0, 0);
    var f := (c: int) => Weight2(a, 2)(c, 0);
    assert Sum(2, f) == Sum(1, f) + f(1) && Sum(1, f) == Sum(0, f) + f(0);
  }

  // The decoder loop

  /** Where one iteration reads its source, none being the zero buffer, and where
      it writes. */
  datatype Access = Access(read: Option<int>, write: int)

  /** Iteration i reads segment i - 1, or zeros, and writes segment i. */
  function Planned(i: int, seg: nat): Access {
    Access(if i == 0 then None else Some(Cell(i - 1, 0, seg)), Cell(i, 0, seg))
  }

  /** Layers, source steps, batch and features. */
  datatype Sizes = Sizes(layers: nat, m: nat, n: nat, f: nat) {
    function Out(): nat {
      n * f
    }

    function Iter(): nat {
      layers * n * (f + f)
    }
  }

  /** The primitives of one iteration: the alignments of a source layer, and the
      output and next state the net makes of a source layer and a state. */
  datatype Decoder = Decoder(align: seq<real> -> seq<real>, net: (seq<real>, seq<real>) -> (seq<real>, seq<real>), exp: real -> real,
                             deq: real -> real, shifted: bool)

  ghost predicate IsDecoder(d: Decoder, z: Sizes) {
    && IsExp(d.exp) && z.m > 0 && z.layers > 0
    && (forall x :: |d.align(x)| == z.m * z.n)
    && (forall x, s :: |d.net(x, s).0| == z.Out() && |d.net(x, s).1| == z.Iter())
  }

  /** In every layer the context half is the weighted sum of the annotations, and
      the hidden half is as before. */
  ghost predicate HasContexts(d: Decoder, z: Sizes, annotations: seq<real>, w: seq<real>, before: seq<real>, after: seq<real>) {
    forall k, j, c | 0 <= k < z.layers && 0 <= j < z.n && 0 <= c < z.f + z.f ::
      State(after, k, j, c, z.n, z.f) ==
      if c >= z.f then Context(w, annotations, d.deq, j, c - z.f, z.m, z.n, z.f) else State(before, k, j, c, z.n, z.f)
  }

  /** One iteration: softmax weights of the alignments of the source, contexts by
      those weights in every layer, and the net on both. */
  ghost predicate IsIteration(d: Decoder, z: Sizes, annotations: seq<real>, src: seq<real>, before: seq<real>, w: seq<real>, mixed: seq<real>,
                              out: seq<real>, after: seq<real>) {
    && |w| == z.m * z.n && IsSoftmax(d.exp, d.align(src), w, z.m, z.n)
    && |mixed| == |before| == z.Iter() && HasContexts(d, z, annotations, w, before, mixed)
    && d.net(src, mixed) == (out, after)
  }

  /** The outputs, the states before and after each iteration, the states with
      contexts, and the weights. */
  datatype Trace = Trace(outs: seq<seq<real>>, states: seq<seq<real>>, mixed: seq<seq<real>>, weights: seq<seq<real>>)

  /** The source of iteration i is the output of the one before, or zeros. */
  function SourceOf(outs: seq<seq<real>>, zeros: seq<real>, i: int): seq<real> {
    if 0 < i <= |outs| then outs[i - 1] else zeros
  }

  ghost predicate IsTrace(d: Decoder, z: Sizes, annotations: seq<real>, init: seq<real>, t: Trace) {
    var n := |t.outs|;
    && |t.states| == n + 1 && |t.mixed| == |t.weights| == n && t.states[0] == init
    && forall i | 0 <= i < n ::
         IsIteration(d, z, annotations, SourceOf(t.outs, seq(z.Out(), _ => 0.0), i), t.states[i], t.weights[i], t.mixed[i], t.outs[i],
                     t.states[i + 1])
  }

  lemma {:induction false} TraceGrows(d: Decoder, z: Sizes, annotations: seq<real>, init: seq<real>, t: Trace, w: seq<real>, mixed: seq<real>,
                                      out: seq<real>, after: seq<real>)
    requires IsTrace(d, z, annotations, init, t)
    requires IsIteration(d, z, annotations, SourceOf(t.outs, seq(z.Out(), _ => 0.0), |t.outs|), t.states[|t.outs|], w, mixed, out, after)
    ensures IsTrace(d, z, annotations, init, Trace(t.outs + [out], t.states + [after], t.mixed + [mixed], t.weights + [w]))
  {
    hide IsIteration;
  }

  lemma {:induction false} WeightsDecide(exp: real -> real, al: seq<real>, w: seq<real>, v: seq<real>, m: nat, n: nat)
    requires |w| == |v| == m * n && IsSoftmax(exp, al, w, m, n) && IsSoftmax(exp, al, v, m, n)
    ensures w == v
  {
    hide Cell, Weight, Exps, Column;
    forall p | 0 <= p < |w|
      ensures w[p] == v[p]
    {
      var r, c := RowAndColumn(p, m, n);
      assert At(w, r, c, n) == At(v, r, c, n);
    }
  }

  lemma {:induction false} IterationIsDetermined(d: Decoder, z: Sizes, annotations: seq<real>, src: seq<real>, before: seq<real>,
                                                 w: seq<real>, mixed: seq<real>, out: seq<real>, after: seq<real>,
                                                 w': seq<real>, mixed': seq<real>, out': seq<real>, after': seq<real>)
    requires IsIteration(d, z, annotations, src, before, w, mixed, out, after)
    requires IsIteration(d, z, annotations, src, before, w', mixed', out', after')
    ensures out == out' && after == after'
  {
    hide Context, State, IsSoftmax;
    WeightsDecide(d.exp, d.align(src), w, w', z.m, z.n);
    EntriesDecide(mixed, mixed', z.layers, z.n, z.f);
  }

  /** What the decoder puts out depends on the annotations and the first state only. */
  lemma {:induction false} OutputsAreDetermined(d: Decoder, z: Sizes, annotations: seq<real>, init: seq<real>, t: Trace, u: Trace, n: nat)
    requires IsTrace(d, z, annotations, init, t) && IsTrace(d, z, annotations, init, u) && n <= |t.outs| && n <= |u.outs|
    ensures t.outs[..n] == u.outs[..n] && t.states[n] == u.states[n]
  {
    hide IsIteration;
    if n > 0 {
      var i := n - 1;
      OutputsAreDetermined(d, z, annotations, init, t, u, i);
      assert i > 0 ==> t.outs[..i][i - 1] == u.outs[..i][i - 1];
      IterationIsDetermined(d, z, annotations, SourceOf(t.outs, seq(z.Out(), _ => 0.0), i), t.states[i],
                            t.weights[i], t.mixed[i], t.outs[i], t.states[n], u.weights[i], u.mixed[i], u.outs[i], u.states[n]);
    }
  }

  function Segment(s: seq<real>, i: int, seg: nat): seq<real> {
    if 0 <= Cell(i, 0, seg) && Cell(i, 0, seg) + seg <= |s| then s[Cell(i, 0, seg)..Cell(i, 0, seg) + seg] else []
  }

  /** On the array: iteration i reads from (i - 1) * seg, or zeros, writes at
      i * seg, and its output is what stands there. */
  lemma {:induction false} SegmentInPlace(s: seq<real>, i: nat, steps: nat, seg: nat)
    requires |s| == steps * seg && i < steps
    ensures Planned(i, seg) == Access(if i == 0 then None else Some((i - 1) * seg), i * seg)
    ensures 0 <= i * seg && i * seg + seg <= |s| && Segment(s, i, seg) == s[i * seg..i * seg + seg]
  {
    SegmentFits(i, steps, seg);
  }

  /** On the array: entry (k * n + j) * (f + f) + f + c of the state is context c
      of batch entry j, in every layer k, and entry (k * n + j) * (f + f) + c is
      as before. */
  lemma {:induction false} ContextsInPlace(d: Decoder, z: Sizes, annotations: seq<real>, w: seq<real>, before: seq<real>, after: seq<real>,
                                           x: (int, int, int) -> real, y: (int, int) -> real, k: nat, j: nat, c: nat)
    requires |before| == |after| == z.Iter() && HasContexts(d, z, annotations, w, before, after) && k < z.layers && j < z.n && c < z.f
    requires Annotates(annotations, x, z.m, z.n, z.f) && Weighs(w, y, z.m, z.n)
    ensures 0 <= (k * z.n + j) * (z.f + z.f) + c && (k * z.n + j) * (z.f + z.f) + z.f + c < |after|
    ensures after[(k * z.n + j) * (z.f + z.f) + z.f + c] == Sum(z.m, Products(x, y, d.deq, j, c))
    ensures after[(k * z.n + j) * (z.f + z.f) + c] == before[(k * z.n + j) * (z.f + z.f) + c]
  {
    hide Annotates, Weighs, Context, Products, Sum, State;
    StateInPlace(after, z.layers, z.n, z.f, k, j, z.f + c);
    StateInPlace(after, z.layers, z.n, z.f, k, j, c);
    StateInPlace(before, z.layers, z.n, z.f, k, j, c);
    ContextIsSum(w, annotations, d.deq, z.m, z.n, z.f, x, y, j, c);
  }

  method Load(a: array<real>, x: seq<real>)
    requires a.Length == |x|
    modifies a
    ensures a[..] == x
  {
    for p := 0 to a.Length
      invariant forall q | 0 <= q < p :: a[q] == x[q]
    {
      a[p] := x[p];
    }
  }

  lemma {:induction false} ContextsEverywhere(d: Decoder, z: Sizes, annotations: seq<real>, w: seq<real>, before: seq<real>, mid: seq<real>,
                                              after: seq<real>)
    requires ContextIs(before, mid, z.layers * z.n, z.n, z.f, ContextOf(w, annotations, d.deq, z.m, z.n, z.f))
    requires forall k, j, c | 0 <= k < z.layers && 0 <= j < z.n && 0 <= c < z.f + z.f ::
               State(after, k, j, c, z.n, z.f) == State(mid, if c >= z.f then 0 else k, j, c, z.n, z.f)
    ensures HasContexts(d, z, annotations, w, before, after)
  {
    hide Cell, At, Entry, Context;
    forall k, j, c | 0 <= k < z.layers && 0 <= j < z.n && 0 <= c < z.f + z.f
      ensures State(after, k, j, c, z.n, z.f) ==
              if c >= z.f then Context(w, annotations, d.deq, j, c - z.f, z.m, z.n, z.f) else State(before, k, j, c, z.n, z.f)
    {
      CellInside(k, j, z.layers, z.n);
      CellInside(0, j, z.layers, z.n);
      assert Cell(0, j, z.n) == j by {
        FirstRow(j, z.n);
      }
    }
  }

  lemma FirstRow(j: int, n: int)
    ensures Cell(0, j, n) == j
  {
  }

  /** Attention into the first layer, and its copies in the others. */
  method Attend(d: Decoder, z: Sizes, iter: array<real>, alignments: array<real>, sums: array<real>, annotations: array<real>, src: seq<real>)
    returns (ghost w: seq<real>)
    requires IsDecoder(d, z) && iter.Length == z.Iter() && alignments.Length == z.m * z.n && sums.Length == z.n
    requires annotations.Length == z.m * z.n * z.f
    requires iter != alignments && iter != sums && iter != annotations && alignments != sums && alignments != annotations && sums != annotations
    modifies iter, alignments, sums
    ensures |w| == z.m * z.n && IsSoftmax(d.exp, d.align(src), w, z.m, z.n)
    ensures HasContexts(d, z, annotations[..], w, old(iter[..]), iter[..])
  {
    hide IsExp, IsSoftmax, ContextIs, HasContexts, State;
    Load(alignments, d.align(src));
    OneLayer(z);
    ComputeAttention(iter, alignments, sums, annotations, d.deq, d.shifted, d.exp, z.layers * z.n, z.m, z.n, z.f);
    w := alignments[..];
    ghost var mid := iter[..];
    CopyContext(iter, z.layers, z.n, z.f);
    ContextsEverywhere(d, z, annotations[..], w, old(iter[..]), mid, iter[..]);
  }

  lemma OneLayer(z: Sizes)
    requires z.layers > 0
    ensures z.n <= z.layers * z.n
  {
    MoreRows(1, z.layers, z.n);
  }

  /** One iteration of the loop. */
  method DecodeOnce(d: Decoder, z: Sizes, out: array<real>, iter: array<real>, alignments: array<real>, sums: array<real>,
                    annotations: array<real>, src: Option<int>, dst: nat, ghost i: nat, ghost outs: seq<seq<real>>)
    returns (ghost w: seq<real>, ghost mixed: seq<real>, ghost o: seq<real>)
    requires IsDecoder(d, z) && iter.Length == z.Iter() && |outs| == i && Access(src, dst) == Planned(i, z.Out())
    requires dst + z.Out() <= out.Length && (i > 0 ==> 0 <= Cell(i - 1, 0, z.Out()) && Cell(i - 1, 0, z.Out()) + z.Out() <= out.Length)
    requires alignments.Length == z.m * z.n && sums.Length == z.n && annotations.Length == z.m * z.n * z.f
    requires iter != alignments && iter != sums && iter != annotations && alignments != sums && alignments != annotations && sums != annotations
    requires out != iter && out != alignments && out != sums && out != annotations
    requires forall k | 0 <= k < i :: Segment(out[..], k, z.Out()) == outs[k]
    modifies out, iter, alignments, sums
    ensures IsIteration(d, z, annotations[..], SourceOf(outs, seq(z.Out(), _ => 0.0), i), old(iter[..]), w, mixed, o, iter[..])
    ensures forall k | 0 <= k <= i :: Segment(out[..], k, z.Out()) == (outs + [o])[k]
  {
    hide Cell, Segment, IsSoftmax, HasContexts, IsExp;
    var source := seq(z.Out(), _ => 0.0);
    if src.Some? {
      source := out[src.value..src.value + z.Out()];
      SegmentIs(out[..], i - 1, z.Out());
    }
    assert source == SourceOf(outs, seq(z.Out(), _ => 0.0), i);
    w := Attend(d, z, iter, alignments, sums, annotations, source);
    mixed := iter[..];
    var result := d.net(source, iter[..]);
    o := result.0;
    Load(iter, result.1);
    WriteSegment(out, dst, result.0, i, z.Out());
  }

  /** Every segment is written once, in order and in bounds.  The outputs and the
      last state are those of the recurrence that feeds each output back and
      mixes the contexts of the whole source into every layer. */
  method Decode(d: Decoder, z: Sizes, out: array<real>, iter: array<real>, alignments: array<real>, sums: array<real>, annotations: array<real>,
                steps: nat)
    returns (ghost t: Trace, ghost log: seq<Access>)
    requires IsDecoder(d, z) && out.Length == steps * z.Out() && iter.Length == z.Iter()
    requires alignments.Length == z.m * z.n && sums.Length == z.n && annotations.Length == z.m * z.n * z.f
    requires iter != alignments && iter != sums && iter != annotations && alignments != sums && alignments != annotations && sums != annotations
    requires out != iter && out != alignments && out != sums && out != annotations
    modifies out, iter, alignments, sums
    ensures IsTrace(d, z, annotations[..], old(iter[..]), t) && |t.outs| == steps
    ensures forall i | 0 <= i < steps :: Segment(out[..], i, z.Out()) == t.outs[i]
    ensures iter[..] == t.states[steps]
    ensures |log| == steps
    ensures forall i | 0 <= i < steps :: log[i] == Planned(i, z.Out()) && 0 <= log[i].write && log[i].write + z.Out() <= out.Length
  {
    hide Cell, Segment, IsIteration, IsExp, IsDecoder, IsTrace;
    var seg := z.Out();
    var src: Option<int>, dst := None, 0;
    ghost var init := iter[..];
    t, log := Trace([], [init], [], []), [];
    Starts(seg);
    NoTrace(d, z, annotations[..], init);
    for i := 0 to steps
      invariant |log| == i && forall k | 0 <= k < i :: log[k] == Planned(k, seg) && 0 <= log[k].write && log[k].write + seg <= out.Length
      invariant Access(src, dst) == Planned(i, seg)
      invariant IsTrace(d, z, annotations[..], init, t) && |t.outs| == i && |t.states| == i + 1 && iter[..] == t.states[i]
      invariant forall k | 0 <= k < i :: Segment(out[..], k, seg) == t.outs[k]
    {
      SegmentFits(i, steps, seg);
      if i > 0 {
        SegmentFits(i - 1, steps, seg);
      }
      ghost var w, mixed, o := DecodeOnce(d, z, out, iter, alignments, sums, annotations, src, dst, i, t.outs);
      TraceGrows(d, z, annotations[..], init, t, w, mixed, o, iter[..]);
      t := Trace(t.outs + [o], t.states + [iter[..]], t.mixed + [mixed], t.weights + [w]);
      log := log + [Access(src, dst)];
      src := Some(dst);
      dst := dst + seg;
    }
  }

  lemma NoTrace(d: Decoder, z: Sizes, annotations: seq<real>, init: seq<real>)
    ensures IsTrace(d, z, annotations, init, Trace([], [init], [], []))
  {
  }

  lemma SegmentIs(s: seq<real>, i: int, seg: nat)
    requires 0 <= Cell(i, 0, seg) && Cell(i, 0, seg) + seg <= |s|
    ensures Segment(s, i, seg) == s[Cell(i, 0, seg)..Cell(i, 0, seg) + seg]
  {
  }

  method WriteSegment(out: array<real>, at: nat, x: seq<real>, ghost i: nat, ghost seg: nat)
    requires |x| == seg && at == Cell(i, 0, seg) && at + seg <= out.Length
    modifies out
    ensures Segment(out[..], i, seg) == x
    ensures forall k | 0 <= k < i :: Segment(out[..], k, seg) == old(Segment(out[..], k, seg))
  {
    hide Cell;
    for p := 0 to |x|
      invariant forall q | 0 <= q < p :: out[at + q] == x[q]
      invariant forall q | 0 <= q < at :: out[q] == old(out[q])
    {
      out[at + p] := x[p];
    }
    assert out[at..at + seg] == x;
    forall k | 0 <= k < i
      ensures Segment(out[..], k, seg) == old(Segment(out[..], k, seg))
    {
      SegmentsApart(k, i, seg);
      assert out[..][Cell(k, 0, seg)..Cell(k, 0, seg) + seg] == old(out[..])[Cell(k, 0, seg)..Cell(k, 0, seg) + seg];
    }
  }

  lemma Starts(seg: nat)
    ensures Cell(0, 0, seg) == 0
  {
  }

  lemma SegmentFits(i: nat, steps: nat, seg: nat)
    requires i < steps
    ensures 0 <= Cell(i, 0, seg) && Cell(i, 0, seg) + seg <= steps * seg && Cell(i + 1, 0, seg) == Cell(i, 0, seg) + seg
  {
    assert (i + 1) * seg <= steps * seg;
    assert (i + 1) * seg == i * seg + seg;
  }

  lemma SegmentsApart(k: nat, i: nat, seg: nat)
    requires k < i
    ensures 0 <= Cell(k, 0, seg) && Cell(k, 0, seg) + seg <= Cell(i, 0, seg)
  {
    assert (k + 1) * seg <= i * seg;
    assert (k + 1) * seg == k * seg + seg;
  }
}
