/** Context vectors and their copies in all layers. */
module DecoderContext {
  import opened Common
  import opened FlatIndex
  import opened RealSums
  import opened DecoderAttention

  // Context vectors

  /** Annotation j of step k for batch entry i, among n entries with f features. */
  function Annotation(s: seq<real>, k: int, i: int, j: int, n: int, f: int): real {
    At(s, Cell(k, i, n), j, f)
  }

  function Term(w: seq<real>, s: seq<real>, deq: real -> real, i: int, j: int, n: int, f: int): int -> real {
    k => At(w, k, i, n) * deq(Annotation(s, k, i, j, n, f))
  }

  /** The weighted sum of the annotations. */
  function Context(w: seq<real>, s: seq<real>, deq: real -> real, i: int, j: int, m: nat, n: int, f: int): real {
    Sum(m, Term(w, s, deq, i, j, n, f))
  }

  /** Column c of row r where each row has a hidden half and a context half. */
  function Entry(s: seq<real>, r: int, c: int, f: int): real {
    At(s, r, c, f + f)
  }

  lemma {:induction false} WriteHalf(s: seq<real>, rows: nat, f: nat, r: nat, c: nat, x: real)
    requires |s| == rows * (f + f) && r < rows && c < f + f
    ensures 0 <= Cell(r, c, f + f) < |s| && Entry(s, r, c, f) == s[Cell(r, c, f + f)]
    ensures forall k, l | 0 <= k < rows && 0 <= l < f + f :: Entry(s[Cell(r, c, f + f) := x], k, l, f) == if k == r && l == c then x else Entry(s, k, l, f)
  {
    hide Cell, At;
    WriteEntry(s, rows, f + f, r, c, x);
  }

  /** The context halves hold what v gives; all else is as before. */
  ghost predicate ContextIs(before: seq<real>, after: seq<real>, rows: nat, n: nat, f: nat, v: (int, int) -> real) {
    forall r, c | 0 <= r < rows && 0 <= c < f + f ::
      Entry(after, r, c, f) == if r < n && c >= f then v(r, c - f) else Entry(before, r, c, f)
  }

  method AccumulateEntry(context: array<real>, w: array<real>, annotations: array<real>, deq: real -> real, rows: nat, i: nat, j: nat, m: nat,
                         n: nat, f: nat)
    requires context.Length == rows * (f + f) && i < n <= rows && j < f && w.Length == m * n && annotations.Length == m * n * f
    requires context != w && context != annotations && Entry(context[..], i, f + j, f) == 0.0
    modifies context
    ensures forall r, c | 0 <= r < rows && 0 <= c < f + f ::
              Entry(context[..], r, c, f) ==
              if r == i && c == f + j then Context(w[..], annotations[..], deq, i, j, m, n, f) else old(Entry(context[..], r, c, f))
  {
    hide Cell, At, Entry, Context, Annotation;
    ContextStarts(w[..], annotations[..], deq, i, j, n, f);
    for k := 0 to m
      invariant forall r, c | 0 <= r < rows && 0 <= c < f + f ::
                  Entry(context[..], r, c, f) ==
                  if r == i && c == f + j then Context(w[..], annotations[..], deq, i, j, k, n, f) else old(Entry(context[..], r, c, f))
    {
      ghost var now := context[..];
      var at := Index(i, f + j, rows, f + f);
      var x := WeightedAnnotation(w, annotations, deq, i, j, k, m, n, f);
      WriteHalf(now, rows, f, i, f + j, Entry(now, i, f + j, f) + x);
      context[at] := context[at] + x;
      assert context[..] == now[at := Entry(now, i, f + j, f) + x];
      ContextGrows(w[..], annotations[..], deq, i, j, k, n, f);
    }
  }

  method WeightedAnnotation(w: array<real>, annotations: array<real>, deq: real -> real, i: nat, j: nat, k: nat, m: nat, n: nat, f: nat)
    returns (x: real)
    requires i < n && j < f && k < m && w.Length == m * n && annotations.Length == m * n * f
    ensures x == Term(w[..], annotations[..], deq, i, j, n, f)(k)
  {
    hide Cell;
    var at := Index(k, i, m, n);
    var an := Index(at, j, m * n, f);
    x := w[at] * deq(annotations[an]);
    assert At(w[..], k, i, n) == w[at] && Annotation(annotations[..], k, i, j, n, f) == annotations[an];
  }

  lemma ContextStarts(w: seq<real>, s: seq<real>, deq: real -> real, i: int, j: int, n: int, f: int)
    ensures Context(w, s, deq, i, j, 0, n, f) == 0.0
  {
  }

  lemma ContextGrows(w: seq<real>, s: seq<real>, deq: real -> real, i: int, j: int, k: nat, n: int, f: int)
    ensures Context(w, s, deq, i, j, k + 1, n, f) == Context(w, s, deq, i, j, k, n, f) + Term(w, s, deq, i, j, n, f)(k)
  {
  }

  method SetEntry(context: array<real>, rows: nat, f: nat, r: nat, c: nat, x: real)
    requires context.Length == rows * (f + f) && r < rows && c < f + f
    modifies context
    ensures forall k, l | 0 <= k < rows && 0 <= l < f + f ::
              Entry(context[..], k, l, f) == if k == r && l == c then x else old(Entry(context[..], k, l, f))
  {
    hide Cell, At, Entry;
    ghost var now := context[..];
    WriteHalf(now, rows, f, r, c, x);
    var at := Index(r, c, rows, f + f);
    context[at] := x;
    assert context[..] == now[at := x];
  }

  function Zeros(): (int, int) -> real {
    (i, j) => 0.0
  }

  method ClearContext(context: array<real>, rows: nat, n: nat, f: nat)
    requires context.Length == rows * (f + f) && n <= rows
    modifies context
    ensures ContextIs(old(context[..]), context[..], rows, n, f, Zeros())
  {
    hide Cell, At, Entry;
    for i := 0 to n
      invariant ContextIs(old(context[..]), context[..], rows, i, f, Zeros())
    {
      for j := 0 to f
        invariant forall r, c | 0 <= r < rows && 0 <= c < f + f ::
                    Entry(context[..], r, c, f) ==
                    if (r < i && c >= f) || (r == i && f <= c < f + j) then 0.0 else old(Entry(context[..], r, c, f))
      {
        SetEntry(context, rows, f, i, f + j, 0.0);
      }
    }
  }

  function ContextOf(w: seq<real>, s: seq<real>, deq: real -> real, m: nat, n: int, f: int): (int, int) -> real {
    (i, j) => Context(w, s, deq, i, j, m, n, f)
  }

  /** The context of every batch entry; the hidden halves keep their values. */
  method ComputeContext(context: array<real>, w: array<real>, annotations: array<real>, deq: real -> real, rows: nat, m: nat, n: nat, f: nat)
    requires context.Length == rows * (f + f) && n <= rows && w.Length == m * n && annotations.Length == m * n * f
    requires context != w && context != annotations
    modifies context
    ensures ContextIs(old(context[..]), context[..], rows, n, f, ContextOf(w[..], annotations[..], deq, m, n, f))
  {
    hide Cell, At, Entry, Context;
    ClearContext(context, rows, n, f);
    ghost var v := ContextOf(w[..], annotations[..], deq, m, n, f);
    for i := 0 to n
      invariant forall r, c | 0 <= r < rows && 0 <= c < f + f ::
                  Entry(context[..], r, c, f) ==
                  if r < i && c >= f then v(r, c - f) else if r < n && c >= f then 0.0 else old(Entry(context[..], r, c, f))
    {
      for j := 0 to f
        invariant forall r, c | 0 <= r < rows && 0 <= c < f + f ::
                    Entry(context[..], r, c, f) ==
                    if (r < i && c >= f) || (r == i && f <= c < f + j) then v(r, c - f)
                    else if r < n && c >= f then 0.0 else old(Entry(context[..], r, c, f))
      {
        AccumulateEntry(context, w, annotations, deq, rows, i, j, m, n, f);
      }
    }
  }

  /** The array holds x(k, i, j) at j + f * (i + n * k). */
  ghost predicate Annotates(s: seq<real>, x: (int, int, int) -> real, m: nat, n: nat, f: nat) {
    && |s| == m * n * f
    && forall k, i, j | 0 <= k < m && 0 <= i < n && 0 <= j < f && 0 <= j + f * (i + n * k) < |s| :: s[j + f * (i + n * k)] == x(k, i, j)
  }

  /** The array holds y(k, i) at k * n + i. */
  ghost predicate Weighs(w: seq<real>, y: (int, int) -> real, m: nat, n: nat) {
    && |w| == m * n
    && forall k, i | 0 <= k < m && 0 <= i < n && 0 <= k * n + i < |w| :: w[k * n + i] == y(k, i)
  }

  function Products(x: (int, int, int) -> real, y: (int, int) -> real, deq: real -> real, i: int, j: int): int -> real {
    k => y(k, i) * deq(x(k, i, j))
  }

  lemma AnnotationPlace(k: int, i: int, j: int, n: int, f: int)
    ensures j + f * (i + n * k) == Cell(Cell(k, i, n), j, f) && k * n + i == Cell(k, i, n)
  {
    assert n * k == k * n;
    assert f * (i + n * k) == (k * n + i) * f;
  }

  lemma {:induction false} TermIs(w: seq<real>, s: seq<real>, deq: real -> real, m: nat, n: nat, f: nat, x: (int, int, int) -> real,
                                  y: (int, int) -> real, i: nat, j: nat, k: nat)
    requires Annotates(s, x, m, n, f) && Weighs(w, y, m, n) && i < n && j < f && k < m
    ensures Term(w, s, deq, i, j, n, f)(k) == Products(x, y, deq, i, j)(k)
  {
    hide Cell;
    AnnotationPlace(k, i, j, n, f);
    CellInside(k, i, m, n);
    CellInside(Cell(k, i, n), j, m * n, f);
    assert s[j + f * (i + n * k)] == x(k, i, j) && w[k * n + i] == y(k, i);
    assert Annotation(s, k, i, j, n, f) == x(k, i, j);
    assert At(w, k, i, n) == y(k, i);
  }

  /** A context is the sum over k of weight k * n + i times annotation
      j + f * (i + n * k). */
  lemma {:induction false} ContextIsSum(w: seq<real>, s: seq<real>, deq: real -> real, m: nat, n: nat, f: nat, x: (int, int, int) -> real,
                                        y: (int, int) -> real, i: nat, j: nat)
    requires Annotates(s, x, m, n, f) && Weighs(w, y, m, n) && i < n && j < f
    ensures Context(w, s, deq, i, j, m, n, f) == Sum(m, Products(x, y, deq, i, j))
  {
    hide Annotates, Weighs, Term, Products, Sum;
    forall k | 0 <= k < m
      ensures Term(w, s, deq, i, j, n, f)(k) == Products(x, y, deq, i, j)(k)
    {
      TermIs(w, s, deq, m, n, f, x, y, i, j, k);
    }
    SumExt(m, Term(w, s, deq, i, j, n, f), Products(x, y, deq, i, j));
  }

  /** Where it lies: entry f + j of row i.  The first f entries of the row are as
      before. */
  lemma {:induction false} ContextInPlace(before: seq<real>, after: seq<real>, w: seq<real>, s: seq<real>, deq: real -> real, rows: nat, m: nat,
                                          n: nat, f: nat, x: (int, int, int) -> real, y: (int, int) -> real, i: nat, j: nat)
    requires |before| == |after| == rows * (f + f) && n <= rows && Annotates(s, x, m, n, f) && Weighs(w, y, m, n) && i < n && j < f
    requires ContextIs(before, after, rows, n, f, ContextOf(w, s, deq, m, n, f))
    ensures 0 <= i * (f + f) + j && i * (f + f) + f + j < |after|
    ensures after[i * (f + f) + f + j] == Sum(m, Products(x, y, deq, i, j))
    ensures after[i * (f + f) + j] == before[i * (f + f) + j]
  {
    hide Annotates, Weighs, Context, Products, Sum;
    CellInside(i, j, rows, f + f);
    CellInside(i, f + j, rows, f + f);
    assert Entry(after, i, f + j, f) == ContextOf(w, s, deq, m, n, f)(i, j);
    assert Entry(after, i, j, f) == Entry(before, i, j, f);
    ContextIsSum(w, s, deq, m, n, f, x, y, i, j);
  }

  lemma {:induction false} WeightedBetween(m: nat, w: int -> real, x: int -> real, lo: real, hi: real, t: int -> real)
    requires Sum(m, w) == 1.0
    requires forall k | 0 <= k < m :: w(k) >= 0.0 && lo <= x(k) <= hi && t(k) == w(k) * x(k)
    ensures lo <= Sum(m, t) <= hi
  {
    hide Sum;
    forall k | 0 <= k < m
      ensures Scaled(lo, w)(k) <= t(k) <= Scaled(hi, w)(k)
    {
      BetweenTimes(w(k), x(k), lo, hi);
    }
    SumMono(m, Scaled(lo, w), t);
    SumMono(m, t, Scaled(hi, w));
    SumScale(m, lo, w);
    SumScale(m, hi, w);
  }

  lemma BetweenTimes(w: real, x: real, lo: real, hi: real)
    requires w >= 0.0 && lo <= x <= hi
    ensures lo * w <= w * x <= hi * w
  {
  }

  /** With softmax weights every element of a context vector lies between the
      least and the largest of its dequantised annotations. */
  lemma {:induction false} ContextLiesBetween(exp: real -> real, before: seq<real>, w: seq<real>, s: seq<real>, deq: real -> real, i: nat, j: nat, m: nat, n: nat,
                                              f: nat, lo: real, hi: real)
    requires IsExp(exp) && m > 0 && i < n && IsSoftmax(exp, before, w, m, n)
    requires forall k | 0 <= k < m :: lo <= deq(Annotation(s, k, i, j, n, f)) <= hi
    ensures lo <= Context(w, s, deq, i, j, m, n, f) <= hi
  {
    hide IsExp, Sum, At, Annotation, Exps;
    var c := Column(w, n, i);
    ExpsArePositive(exp, Column(before, n, i), m);
    WeightsSumToOne(exp, Column(before, n, i), m, c);
    WeightedBetween(m, c, k => deq(Annotation(s, k, i, j, n, f)), lo, hi, Term(w, s, deq, i, j, n, f));
  }

  /** The step for f32 and for int8: the two differ in the softmax used and in how
      annotations are dequantised. */
  method ComputeAttention(context: array<real>, alignments: array<real>, sums: array<real>, annotations: array<real>, deq: real -> real, shifted: bool,
                          exp: real -> real, rows: nat, m: nat, n: nat, f: nat)
    requires context.Length == rows * (f + f) && n <= rows && alignments.Length == m * n && annotations.Length == m * n * f && sums.Length == n
    requires context != alignments && context != annotations && context != sums && alignments != sums && annotations != alignments
    requires annotations != sums && m > 0 && IsExp(exp)
    modifies context, alignments, sums
    ensures IsSoftmax(exp, old(alignments[..]), alignments[..], m, n)
    ensures ContextIs(old(context[..]), context[..], rows, n, f, ContextOf(alignments[..], annotations[..], deq, m, n, f))
  {
    hide *;
    if shifted {
      SoftmaxShifted(alignments, sums, m, n, exp);
    } else {
      SoftmaxPlain(alignments, sums, m, n, exp);
    }
    ComputeContext(context, alignments, annotations, deq, rows, m, n, f);
  }

  // Copies of the context in every layer

  /** One iteration of the copy. */
  datatype Iteration = Iteration(k: nat, j: nat, i: nat)

  predicate InRange(it: Iteration, layers: nat, n: nat, f: nat) {
    1 <= it.k < layers && it.j < n && it.i < f
  }

  function CopyOne(s: seq<real>, it: Iteration, n: int, f: int): seq<real> {
    var to := Cell(Cell(it.k, it.j, n), f + it.i, f + f);
    if 0 <= to < |s| then s[to := At(s, it.j, f + it.i, f + f)] else s
  }

  /** The iterations in some order. */
  function CopyAll(s: seq<real>, order: seq<Iteration>, n: int, f: int): seq<real> {
    if order == [] then s else CopyOne(CopyAll(s, order[..|order| - 1], n, f), order[|order| - 1], n, f)
  }

  /** Column c of batch entry j in layer k. */
  function State(s: seq<real>, k: int, j: int, c: int, n: int, f: int): real {
    Entry(s, Cell(k, j, n), c, f)
  }

  /** The copies made so far: layer 0 and the hidden halves are as before. */
  ghost predicate CopiedBy(s: seq<real>, t: seq<real>, done: seq<Iteration>, layers: nat, n: nat, f: nat) {
    forall k, j, c | 0 <= k < layers && 0 <= j < n && 0 <= c < f + f ::
      State(t, k, j, c, n, f) == if c >= f && Iteration(k, j, c - f) in done then State(s, 0, j, c, n, f) else State(s, k, j, c, n, f)
  }

  lemma {:induction false} WriteState(s: seq<real>, layers: nat, n: nat, f: nat, k: nat, j: nat, c: nat, x: real, k': int, j': int, c': int)
    requires |s| == layers * n * (f + f) && k < layers && j < n && c < f + f
    requires 0 <= k' < layers && 0 <= j' < n && 0 <= c' < f + f
    ensures 0 <= Cell(Cell(k, j, n), c, f + f) < |s|
    ensures State(s[Cell(Cell(k, j, n), c, f + f) := x], k', j', c', n, f) ==
            if k' == k && j' == j && c' == c then x else State(s, k', j', c', n, f)
  {
    hide Cell, Entry;
    CellInside(k, j, layers, n);
    CellInside(k', j', layers, n);
    WriteHalf(s, layers * n, f, Cell(k, j, n), c, x);
    if Cell(k', j', n) == Cell(k, j, n) {
      CellApart(k', j', k, j, n);
    }
  }

  lemma FirstLayer(s: seq<real>, j: int, c: int, n: int, f: int)
    ensures State(s, 0, j, c, n, f) == At(s, j, c, f + f)
  {
    assert Cell(0, j, n) == j;
  }

  lemma {:induction false} CopyStep(s: seq<real>, t: seq<real>, done: seq<Iteration>, it: Iteration, layers: nat, n: nat, f: nat)
    requires |s| == |t| == layers * n * (f + f) && InRange(it, layers, n, f) && CopiedBy(s, t, done, layers, n, f)
    requires forall d | d in done :: InRange(d, layers, n, f)
    ensures |CopyOne(t, it, n, f)| == |s| && CopiedBy(s, CopyOne(t, it, n, f), done + [it], layers, n, f)
  {
    hide At, Cell, State;
    FirstLayer(t, it.j, f + it.i, n, f);
    var x := State(t, 0, it.j, f + it.i, n, f);
    WriteState(t, layers, n, f, it.k, it.j, f + it.i, x, 0, 0, 0);
    assert Iteration(0, it.j, it.i) !in done;
    assert x == State(s, 0, it.j, f + it.i, n, f);
    forall k, j, c | 0 <= k < layers && 0 <= j < n && 0 <= c < f + f
      ensures State(CopyOne(t, it, n, f), k, j, c, n, f) ==
              if c >= f && Iteration(k, j, c - f) in done + [it] then State(s, 0, j, c, n, f) else State(s, k, j, c, n, f)
    {
      WriteState(t, layers, n, f, it.k, it.j, f + it.i, x, k, j, c);
    }
  }

  lemma {:induction false} CopyAllCopies(s: seq<real>, order: seq<Iteration>, layers: nat, n: nat, f: nat)
    requires |s| == layers * n * (f + f) && forall d | d in order :: InRange(d, layers, n, f)
    ensures |CopyAll(s, order, n, f)| == |s| && CopiedBy(s, CopyAll(s, order, n, f), order, layers, n, f)
  {
    hide CopyOne, State;
    if order != [] {
      var e := |order| - 1;
      CopyAllCopies(s, order[..e], layers, n, f);
      CopyStep(s, CopyAll(s, order[..e], n, f), order[..e], order[e], layers, n, f);
      assert order[..e] + [order[e]] == order;
    }
  }

  lemma {:induction false} EntriesDecide(a: seq<real>, b: seq<real>, layers: nat, n: nat, f: nat)
    requires |a| == |b| == layers * n * (f + f)
    requires forall k, j, c | 0 <= k < layers && 0 <= j < n && 0 <= c < f + f :: State(a, k, j, c, n, f) == State(b, k, j, c, n, f)
    ensures a == b
  {
    hide Cell;
    forall p | 0 <= p < |a|
      ensures a[p] == b[p]
    {
      var r, c := RowAndColumn(p, layers * n, f + f);
      var k, j := RowAndColumn(r, layers, n);
      assert State(a, k, j, c, n, f) == State(b, k, j, c, n, f);
    }
  }

  /** Any two orders of the same iterations, and any interleaving with
      repetitions, give the same array. */
  lemma {:induction false} CopyOrderDoesNotMatter(s: seq<real>, a: seq<Iteration>, b: seq<Iteration>, layers: nat, n: nat, f: nat)
    requires |s| == layers * n * (f + f)
    requires forall d :: d in a <==> InRange(d, layers, n, f)
    requires forall d :: d in b <==> InRange(d, layers, n, f)
    ensures CopyAll(s, a, n, f) == CopyAll(s, b, n, f)
  {
    hide CopyAll, State;
    CopyAllCopies(s, a, layers, n, f);
    CopyAllCopies(s, b, layers, n, f);
    EntriesDecide(CopyAll(s, a, n, f), CopyAll(s, b, n, f), layers, n, f);
  }

  /** The copy as written, one layer after another. */
  method CopyContext(state: array<real>, layers: nat, n: nat, f: nat)
    requires state.Length == layers * n * (f + f)
    modifies state
    ensures forall k, j, c | 0 <= k < layers && 0 <= j < n && 0 <= c < f + f ::
              State(state[..], k, j, c, n, f) == old(State(state[..], if c >= f then 0 else k, j, c, n, f))
  {
    hide At, Cell, State, Entry;
    if layers == 0 {
      return;
    }
    for k := 1 to layers
      invariant forall k', j', c' | 0 <= k' < layers && 0 <= j' < n && 0 <= c' < f + f ::
                  State(state[..], k', j', c', n, f) == old(State(state[..], if c' >= f && k' < k then 0 else k', j', c', n, f))
    {
      for j := 0 to n
        invariant forall k', j', c' | 0 <= k' < layers && 0 <= j' < n && 0 <= c' < f + f ::
                    State(state[..], k', j', c', n, f) ==
                    old(State(state[..], if c' >= f && (k' < k || (k' == k && j' < j)) then 0 else k', j', c', n, f))
      {
        for i := 0 to f
          invariant forall k', j', c' | 0 <= k' < layers && 0 <= j' < n && 0 <= c' < f + f ::
                      State(state[..], k', j', c', n, f) ==
                      old(State(state[..], if c' >= f && (k' < k || (k' == k && (j' < j || (j' == j && c' < f + i)))) then 0 else k', j', c', n, f))
        {
          CopyElement(state, layers, n, f, k, j, i);
        }
      }
    }
  }

  method CopyElement(state: array<real>, layers: nat, n: nat, f: nat, k: nat, j: nat, i: nat)
    requires state.Length == layers * n * (f + f) && 1 <= k < layers && j < n && i < f
    modifies state
    ensures forall k', j', c' | 0 <= k' < layers && 0 <= j' < n && 0 <= c' < f + f ::
              State(state[..], k', j', c', n, f) ==
              if k' == k && j' == j && c' == f + i then old(State(state[..], 0, j, f + i, n, f)) else old(State(state[..], k', j', c', n, f))
  {
    hide At, Cell, State;
    var row := Index(k, j, layers, n);
    var to := Index(row, f + i, layers * n, f + f);
    var first := Index(0, j, layers, n);
    var from := Index(first, f + i, layers * n, f + f);
    ghost var now := state[..];
    ReadState(now, 0, j, f + i, n, f, from);
    state[to] := state[from];
    assert state[..] == now[to := now[from]];
    forall k', j', c' | 0 <= k' < layers && 0 <= j' < n && 0 <= c' < f + f
      ensures State(state[..], k', j', c', n, f) == if k' == k && j' == j && c' == f + i then now[from] else State(now, k', j', c', n, f)
    {
      WriteState(now, layers, n, f, k, j, f + i, now[from], k', j', c');
    }
  }

  lemma ReadState(s: seq<real>, k: int, j: int, c: int, n: int, f: int, at: nat)
    requires at == Cell(Cell(k, j, n), c, f + f) < |s|
    ensures s[at] == State(s, k, j, c, n, f)
  {
  }

  /** Where column c of batch entry j in layer k lies. */
  lemma {:induction false} StateInPlace(s: seq<real>, layers: nat, n: nat, f: nat, k: nat, j: nat, c: nat)
    requires |s| == layers * n * (f + f) && k < layers && j < n && c < f + f
    ensures 0 <= (k * n + j) * (f + f) + c < |s| && State(s, k, j, c, n, f) == s[(k * n + j) * (f + f) + c]
  {
    CellInside(k, j, layers, n);
    CellInside(Cell(k, j, n), c, layers * n, f + f);
  }

  /** The nested loops do what the iterations do in any order. */
  lemma {:induction false} CopyContextIsAnyOrder(s: seq<real>, t: seq<real>, order: seq<Iteration>, layers: nat, n: nat, f: nat)
    requires |s| == |t| == layers * n * (f + f) && forall d :: d in order <==> InRange(d, layers, n, f)
    requires forall k, j, c | 0 <= k < layers && 0 <= j < n && 0 <= c < f + f ::
               State(t, k, j, c, n, f) == State(s, if c >= f then 0 else k, j, c, n, f)
    ensures t == CopyAll(s, order, n, f)
  {
    hide CopyAll, State;
    CopyAllCopies(s, order, layers, n, f);
    var u := CopyAll(s, order, n, f);
    forall k, j, c | 0 <= k < layers && 0 <= j < n && 0 <= c < f + f
      ensures State(t, k, j, c, n, f) == State(u, k, j, c, n, f)
    {
      if c >= f && k >= 1 {
        assert Iteration(k, j, c - f) in order;
      }
    }
    EntriesDecide(t, u, layers, n, f);
  }
}
