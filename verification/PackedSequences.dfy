/** Two batches of different lengths in one padded buffer, processed by two
    recurrent primitives on views of it. */
module PackedSequences {
  import opened FlatIndex

  /** n0 sequences of length t0 and n1 of length t1, in a buffer of t0 steps of
      n0 + n1 entries of c channels. */
  datatype Batches = Batches(n0: nat, t0: nat, n1: nat, t1: nat, c: nat)

  predicate LongerFirst(b: Batches) {
    b.t1 <= b.t0
  }

  /** A sub-memory: where it starts in time, and its steps and batch. */
  datatype View = View(start: nat, steps: nat, batch: nat)

  function Leftmost(b: Batches): View {
    View(0, b.t1, b.n0 + b.n1)
  }

  function Rightmost(b: Batches): View
    requires LongerFirst(b)
  {
    View(b.t1, b.t0 - b.t1, b.n0)
  }

  /** Position of channel k of sequence n at step t. */
  function Position(b: Batches, t: int, n: int, k: int): int {
    Cell(Cell(t, n, b.n0 + b.n1), k, b.c)
  }

  function Size(b: Batches): nat {
    b.t0 * (b.n0 + b.n1) * b.c
  }

  predicate InView(b: Batches, v: View, t: int, n: int, k: int) {
    0 <= t < v.steps && 0 <= n < v.batch && 0 <= k < b.c
  }

  /** Where a view finds its element. */
  function ViewPosition(b: Batches, v: View, t: int, n: int, k: int): int {
    Position(b, v.start + t, n, k)
  }

  /** How long sequence n is. */
  function Length(b: Batches, n: int): nat {
    if n < b.n0 then b.t0 else b.t1
  }

  /** Not padding. */
  predicate IsValid(b: Batches, t: int, n: int, k: int) {
    0 <= n < b.n0 + b.n1 && 0 <= t < Length(b, n) && 0 <= k < b.c
  }

  lemma {:induction false} PositionInside(b: Batches, t: int, n: int, k: int)
    requires 0 <= t < b.t0 && 0 <= n < b.n0 + b.n1 && 0 <= k < b.c
    ensures 0 <= Position(b, t, n, k) < Size(b)
  {
    hide Cell;
    CellInside(t, n, b.t0, b.n0 + b.n1);
    CellInside(Cell(t, n, b.n0 + b.n1), k, b.t0 * (b.n0 + b.n1), b.c);
  }

  lemma {:induction false} PositionsApart(b: Batches, t: int, n: int, k: int, u: int, m: int, l: int)
    requires 0 <= n < b.n0 + b.n1 && 0 <= m < b.n0 + b.n1 && 0 <= k < b.c && 0 <= l < b.c
    requires Position(b, t, n, k) == Position(b, u, m, l)
    ensures t == u && n == m && k == l
  {
    hide Cell;
    CellApart(Cell(t, n, b.n0 + b.n1), k, Cell(u, m, b.n0 + b.n1), l, b.c);
    CellApart(t, n, u, m, b.n0 + b.n1);
  }

  /** Both views lie inside the buffer and share nothing. */
  lemma {:induction false} ViewsAreApart(b: Batches, t: int, n: int, k: int, u: int, m: int, l: int)
    requires LongerFirst(b) && InView(b, Leftmost(b), t, n, k) && InView(b, Rightmost(b), u, m, l)
    ensures 0 <= ViewPosition(b, Leftmost(b), t, n, k) < Size(b) && 0 <= ViewPosition(b, Rightmost(b), u, m, l) < Size(b)
    ensures ViewPosition(b, Leftmost(b), t, n, k) != ViewPosition(b, Rightmost(b), u, m, l)
  {
    hide Position, Size;
    PositionInside(b, t, n, k);
    PositionInside(b, b.t1 + u, m, l);
    if ViewPosition(b, Leftmost(b), t, n, k) == ViewPosition(b, Rightmost(b), u, m, l) {
      PositionsApart(b, t, n, k, b.t1 + u, m, l);
    }
  }

  /** A position of the buffer belongs to a view. */
  ghost predicate Viewed(b: Batches, v: View, p: int) {
    exists t, n, k :: InView(b, v, t, n, k) && ViewPosition(b, v, t, n, k) == p
  }

  /** The views see exactly the elements that are not padding. */
  lemma {:induction false} ViewsCoverIff(b: Batches, t: int, n: int, k: int)
    requires LongerFirst(b) && 0 <= t < b.t0 && 0 <= n < b.n0 + b.n1 && 0 <= k < b.c
    ensures Viewed(b, Leftmost(b), Position(b, t, n, k)) || Viewed(b, Rightmost(b), Position(b, t, n, k)) <==> IsValid(b, t, n, k)
  {
    hide Position;
    var p := Position(b, t, n, k);
    if IsValid(b, t, n, k) {
      if t < b.t1 {
        assert InView(b, Leftmost(b), t, n, k) && ViewPosition(b, Leftmost(b), t, n, k) == p;
      } else {
        assert InView(b, Rightmost(b), t - b.t1, n, k) && ViewPosition(b, Rightmost(b), t - b.t1, n, k) == p;
      }
    }
    if Viewed(b, Leftmost(b), p) {
      var u, m, l :| InView(b, Leftmost(b), u, m, l) && ViewPosition(b, Leftmost(b), u, m, l) == p;
      PositionsApart(b, u, m, l, t, n, k);
    }
    if Viewed(b, Rightmost(b), p) {
      var u, m, l :| InView(b, Rightmost(b), u, m, l) && ViewPosition(b, Rightmost(b), u, m, l) == p;
      PositionsApart(b, b.t1 + u, m, l, t, n, k);
    }
  }

  // The recurrence

  /** The state after a step with this input row. */
  datatype Recurrence<!S> = Recurrence(zero: S, step: (seq<real>, S) -> S)

  /** The channels of sequence n at step t. */
  function Row(b: Batches, src: seq<real>, t: int, n: int): seq<real> {
    seq(b.c, k => if 0 <= Position(b, t, n, k) < |src| then src[Position(b, t, n, k)] else 0.0)
  }

  /** Sequence n by itself: its state after i steps. */
  function Plain<S>(r: Recurrence<S>, b: Batches, src: seq<real>, n: int, i: nat): S {
    if i == 0 then r.zero else r.step(Row(b, src, i - 1, n), Plain(r, b, src, n, i - 1))
  }

  /** A primitive on a view, started from given states: the state of batch entry n after i steps. */
  function OnView<S>(r: Recurrence<S>, b: Batches, v: View, src: seq<real>, init: seq<S>, n: nat, i: nat): S
    requires n < |init|
  {
    if i == 0 then init[n] else r.step(Row(b, src, v.start + i - 1, n), OnView(r, b, v, src, init, n, i - 1))
  }

  /** The states after each step, and the last states, of all batch entries. */
  method Execute<S>(r: Recurrence<S>, b: Batches, v: View, src: seq<real>, init: seq<S>) returns (dst: seq<seq<S>>, last: seq<S>)
    requires |init| == v.batch
    ensures |dst| == v.steps && |last| == v.batch
    ensures forall t | 0 <= t < v.steps :: |dst[t]| == v.batch
    ensures forall t, n | 0 <= t < v.steps && 0 <= n < v.batch :: dst[t][n] == OnView(r, b, v, src, init, n, t + 1)
    ensures forall n | 0 <= n < v.batch :: last[n] == OnView(r, b, v, src, init, n, v.steps)
  {
    dst, last := [], init;
    for t := 0 to v.steps
      invariant |dst| == t && |last| == v.batch
      invariant forall u | 0 <= u < t :: |dst[u]| == v.batch
      invariant forall u, n | 0 <= u < t && 0 <= n < v.batch :: dst[u][n] == OnView(r, b, v, src, init, n, u + 1)
      invariant forall n | 0 <= n < v.batch :: last[n] == OnView(r, b, v, src, init, n, t)
    {
      ghost var before := last;
      for n := 0 to v.batch
        invariant |last| == v.batch
        invariant forall m | 0 <= m < v.batch :: last[m] == if m < n then OnView(r, b, v, src, init, m, t + 1) else before[m]
      {
        last := last[n := r.step(Row(b, src, v.start + t, n), last[n])];
      }
      dst := dst + [last];
    }
  }

  lemma {:induction false} LeftmostIsPlain<S>(r: Recurrence<S>, b: Batches, src: seq<real>, init: seq<S>, n: nat, i: nat)
    requires |init| == b.n0 + b.n1 && n < b.n0 + b.n1 && init[n] == r.zero
    ensures OnView(r, b, Leftmost(b), src, init, n, i) == Plain(r, b, src, n, i)
  {
    if i > 0 {
      LeftmostIsPlain(r, b, src, init, n, i - 1);
    }
  }

  /** Handing the state of the first n0 entries over continues their sequences. */
  lemma {:induction false} RightmostContinues<S>(r: Recurrence<S>, b: Batches, src: seq<real>, init: seq<S>, n: nat, i: nat)
    requires LongerFirst(b) && |init| == b.n0 && n < b.n0 && init[n] == Plain(r, b, src, n, b.t1)
    ensures OnView(r, b, Rightmost(b), src, init, n, i) == Plain(r, b, src, n, b.t1 + i)
  {
    if i > 0 {
      RightmostContinues(r, b, src, init, n, i - 1);
    }
  }

  // The sequences by themselves

  /** The state after i rows of a sequence that lies in no buffer. */
  function Alone<S>(r: Recurrence<S>, x: seq<seq<real>>, i: nat): S
    requires i <= |x|
  {
    if i == 0 then r.zero else r.step(x[i - 1], Alone(r, x, i - 1))
  }

  /** Where channel k of step t of sequence n lies. */
  function Flat(b: Batches, t: int, n: int, k: int): int {
    t * (b.n0 + b.n1) * b.c + n * b.c + k
  }

  /** The first n0 sequences have t0 rows and the others t1, of c channels each. */
  predicate AreSequences(b: Batches, xs: seq<seq<seq<real>>>) {
    && |xs| == b.n0 + b.n1
    && (forall n | 0 <= n < |xs| :: |xs[n]| == if n < b.n0 then b.t0 else b.t1)
    && (forall n, t | 0 <= n < |xs| && 0 <= t < |xs[n]| :: |xs[n][t]| == b.c)
  }

  /** The buffer holds these sequences; the padding may be anything. */
  ghost predicate IsPacked(b: Batches, xs: seq<seq<seq<real>>>, src: seq<real>) {
    && AreSequences(b, xs) && |src| == Size(b)
    && forall n, t, k | 0 <= n < |xs| && 0 <= t < |xs[n]| && 0 <= k < b.c ::
         0 <= Flat(b, t, n, k) < |src| && src[Flat(b, t, n, k)] == xs[n][t][k]
  }

  /** Every buffer of the size holds some sequences. */
  lemma {:induction false} IsAlwaysPacked(b: Batches, src: seq<real>) returns (xs: seq<seq<seq<real>>>)
    requires LongerFirst(b) && |src| == Size(b)
    ensures IsPacked(b, xs, src)
  {
    hide Position, Size, Flat;
    xs := seq(b.n0 + b.n1, n requires 0 <= n < b.n0 + b.n1 => seq(Length(b, n), t requires 0 <= t < Length(b, n) => Row(b, src, t, n)));
    forall n, t, k | 0 <= n < |xs| && 0 <= t < |xs[n]| && 0 <= k < b.c
      ensures 0 <= Flat(b, t, n, k) < |src| && src[Flat(b, t, n, k)] == xs[n][t][k]
    {
      FlatIs(b, t, n, k);
      PositionInside(b, t, n, k);
    }
  }

  lemma FlatIs(b: Batches, t: int, n: int, k: int)
    ensures Flat(b, t, n, k) == Position(b, t, n, k)
  {
    var m := b.n0 + b.n1;
    assert (t * m + n) * b.c == t * m * b.c + n * b.c;
  }

  /** What a primitive reads at step t of entry n on a view. */
  lemma {:induction false} RowOnView(b: Batches, v: View, src: seq<real>, t: int, n: int, k: int)
    requires LongerFirst(b) && (v == Leftmost(b) || v == Rightmost(b)) && |src| == Size(b) && InView(b, v, t, n, k)
    ensures 0 <= (v.start + t) * (b.n0 + b.n1) * b.c + n * b.c + k < |src|
    ensures |Row(b, src, v.start + t, n)| == b.c
    ensures Row(b, src, v.start + t, n)[k] == src[(v.start + t) * (b.n0 + b.n1) * b.c + n * b.c + k]
  {
    hide Position, Size;
    FlatIs(b, v.start + t, n, k);
    PositionInside(b, v.start + t, n, k);
  }

  lemma {:induction false} RowIs(b: Batches, xs: seq<seq<seq<real>>>, src: seq<real>, t: nat, n: nat)
    requires LongerFirst(b) && IsPacked(b, xs, src) && n < |xs| && t < |xs[n]|
    ensures Row(b, src, t, n) == xs[n][t]
  {
    hide Position, Flat;
    forall k | 0 <= k < b.c
      ensures Row(b, src, t, n)[k] == xs[n][t][k]
    {
      FlatIs(b, t, n, k);
    }
  }

  /** In the buffer a sequence gets the states it gets by itself. */
  lemma {:induction false} PackingChangesNothing<S>(r: Recurrence<S>, b: Batches, xs: seq<seq<seq<real>>>, src: seq<real>, n: nat, i: nat)
    requires LongerFirst(b) && IsPacked(b, xs, src) && n < |xs| && i <= |xs[n]|
    ensures Plain(r, b, src, n, i) == Alone(r, xs[n], i)
  {
    hide Row, IsPacked;
    if i > 0 {
      PackingChangesNothing(r, b, xs, src, n, i - 1);
      RowIs(b, xs, src, i - 1, n);
    }
  }

  lemma {:induction false} SameRow(b: Batches, src: seq<real>, src': seq<real>, n: nat, t: nat)
    requires LongerFirst(b) && |src| == |src'| == Size(b) && n < b.n0 + b.n1 && t < Length(b, n)
    requires forall u, k | IsValid(b, u, n, k) ::
               0 <= Flat(b, u, n, k) < Size(b) ==> src[Flat(b, u, n, k)] == src'[Flat(b, u, n, k)]
    ensures Row(b, src, t, n) == Row(b, src', t, n)
  {
    hide Position, Size, Flat;
    var x, y := Row(b, src, t, n), Row(b, src', t, n);
    forall k | 0 <= k < b.c
      ensures x[k] == y[k]
    {
      assert IsValid(b, t, n, k);
      FlatIs(b, t, n, k);
    }
  }

  /** The states of a sequence depend on its own cells only: not on padding and
      not on other sequences. */
  lemma {:induction false} OnlyOwnCellsMatter<S>(r: Recurrence<S>, b: Batches, src: seq<real>, src': seq<real>, n: nat, i: nat)
    requires LongerFirst(b) && |src| == |src'| == Size(b) && n < b.n0 + b.n1 && i <= Length(b, n)
    requires forall t, k | IsValid(b, t, n, k) ::
               0 <= Flat(b, t, n, k) < Size(b) ==> src[Flat(b, t, n, k)] == src'[Flat(b, t, n, k)]
    ensures Plain(r, b, src, n, i) == Plain(r, b, src', n, i)
  {
    hide Row, Size, Flat;
    if i > 0 {
      OnlyOwnCellsMatter(r, b, src, src', n, i - 1);
      SameRow(b, src, src', n, i - 1);
    }
  }

  // The code

  /** Sequence n has the states it has by itself, the first ones in left and the
      others in right. */
  ghost predicate IsForward<S>(r: Recurrence<S>, b: Batches, xs: seq<seq<seq<real>>>, left: seq<seq<S>>, right: seq<seq<S>>)
    requires LongerFirst(b) && AreSequences(b, xs)
  {
    && |left| == b.t1 && |right| == b.t0 - b.t1
    && (forall t | 0 <= t < b.t1 :: |left[t]| == b.n0 + b.n1)
    && (forall t | 0 <= t < b.t0 - b.t1 :: |right[t]| == b.n0)
    && (forall t, n | 0 <= n < b.n0 + b.n1 && 0 <= t < b.t1 :: left[t][n] == Alone(r, xs[n], t + 1))
    && (forall t, n | 0 <= n < b.n0 && 0 <= t < b.t0 - b.t1 :: right[t][n] == Alone(r, xs[n], b.t1 + t + 1))
  }

  /** So the padding does not matter. */
  lemma {:induction false} ForwardIsDetermined<S>(r: Recurrence<S>, b: Batches, xs: seq<seq<seq<real>>>, left: seq<seq<S>>, right: seq<seq<S>>,
                                                  left': seq<seq<S>>, right': seq<seq<S>>)
    requires LongerFirst(b) && AreSequences(b, xs) && IsForward(r, b, xs, left, right) && IsForward(r, b, xs, left', right')
    ensures left == left' && right == right'
  {
    forall t | 0 <= t < b.t1
      ensures left[t] == left'[t]
    {
      forall n | 0 <= n < b.n0 + b.n1
        ensures left[t][n] == left'[t][n]
      {
        assert left[t][n] == Alone(r, xs[n], t + 1);
        assert left'[t][n] == Alone(r, xs[n], t + 1);
      }
    }
    forall t | 0 <= t < b.t0 - b.t1
      ensures right[t] == right'[t]
    {
      forall n | 0 <= n < b.n0
        ensures right[t][n] == right'[t][n]
      {
        assert right[t][n] == Alone(r, xs[n], b.t1 + t + 1);
        assert right'[t][n] == Alone(r, xs[n], b.t1 + t + 1);
      }
    }
  }

  /** Both primitives one after the other.  Every sequence gets the states of the
      plain recurrence over its own length, as if it lay in no buffer. */
  method ForwardPacked<S>(r: Recurrence<S>, b: Batches, src: seq<real>, ghost xs: seq<seq<seq<real>>>)
    returns (left: seq<seq<S>>, right: seq<seq<S>>)
    requires LongerFirst(b) && AreSequences(b, xs) && IsPacked(b, xs, src)
    ensures IsForward(r, b, xs, left, right)
  {
    hide IsPacked, Row;
    var zeros := seq(b.n0 + b.n1, _ => r.zero);
    var states, ignored;
    left, states := Execute(r, b, Leftmost(b), src, zeros);
    forall t, n | 0 <= n < b.n0 + b.n1 && 0 <= t < b.t1
      ensures left[t][n] == Alone(r, xs[n], t + 1)
    {
      LeftmostIsPlain(r, b, src, zeros, n, t + 1);
      PackingChangesNothing(r, b, xs, src, n, t + 1);
    }
    var handed := states[..b.n0];
    right, ignored := Execute(r, b, Rightmost(b), src, handed);
    forall t, n | 0 <= n < b.n0 && 0 <= t < b.t0 - b.t1
      ensures right[t][n] == Alone(r, xs[n], b.t1 + t + 1)
    {
      LeftmostIsPlain(r, b, src, zeros, n, b.t1);
      RightmostContinues(r, b, src, handed, n, t + 1);
      PackingChangesNothing(r, b, xs, src, n, b.t1 + t + 1);
    }
  }
}
