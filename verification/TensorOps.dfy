/** What the graph operations compute on five-dimensional tensors. */
module TensorOps {
  import opened RealSums
  import opened DualNumbers
  import opened Dataflow
  import opened AttentionAdjoint
  import Softmax

  /** A shape or an index: batch, key/value head, query head within the group,
      row and column. */
  datatype Ix = Ix(b: int, g: int, r: int, i: int, c: int)

  datatype Tensor = Tensor(dims: Ix, at: Ix -> Num)

  datatype Kind =
    | MatMul(transposeA: bool, transposeB: bool)
    | Divide
    | Add
    | Subtract
    | Multiply
    | Exp
    | SoftMax
    | TypeCast
    | ReduceSum(axis: nat)

  /** The element at x, with every dimension of size one broadcast. */
  function Get(t: Tensor, x: Ix): Num {
    t.at(Ix(if t.dims.b == 1 then 0 else x.b,
            if t.dims.g == 1 then 0 else x.g,
            if t.dims.r == 1 then 0 else x.r,
            if t.dims.i == 1 then 0 else x.i,
            if t.dims.c == 1 then 0 else x.c))
  }

  function BroadcastSize(m: int, n: int): int {
    if m == 1 then n else m
  }

  function Broadcast(x: Ix, y: Ix): Ix {
    Ix(BroadcastSize(x.b, y.b), BroadcastSize(x.g, y.g), BroadcastSize(x.r, y.r),
       BroadcastSize(x.i, y.i), BroadcastSize(x.c, y.c))
  }

  function Elementwise(f: (Num, Num) -> Num, a: Tensor, b: Tensor): Tensor {
    Tensor(Broadcast(a.dims, b.dims), x => f(Get(a, x), Get(b, x)))
  }

  function Transposed(t: Tensor): Tensor {
    Tensor(t.dims.(i := t.dims.c, c := t.dims.i), (x: Ix) => t.at(x.(i := x.c, c := x.i)))
  }

  function Size(n: int): nat {
    if n < 0 then 0 else n
  }

  /** The terms of entry x of a matrix product. */
  function Terms(a: Tensor, b: Tensor, x: Ix): int -> Num {
    k => Times(Get(a, x.(c := k)), Get(b, x.(i := k)))
  }

  function MatrixProduct(a: Tensor, b: Tensor): Tensor {
    Tensor(Broadcast(a.dims, b.dims).(i := a.dims.i, c := b.dims.c),
           x => Total(Size(a.dims.c), Terms(a, b, x)))
  }

  /** Row (x.b, x.g, x.r, x.i) of t. */
  function RowOf(t: Tensor, x: Ix): int -> Num {
    j => Get(t, x.(c := j))
  }

  /** Element (x.b, x.g, x.i, x.c) of every query head in the group. */
  function GroupOf(t: Tensor, x: Ix): int -> Num {
    r => Get(t, x.(r := r))
  }

  function Reduced(axis: nat, t: Tensor): Tensor {
    if axis == 2 then Tensor(t.dims.(r := 1), x => Total(Size(t.dims.r), GroupOf(t, x)))
    else if axis == 4 then Tensor(t.dims.(c := 1), x => Total(Size(t.dims.c), RowOf(t, x)))
    else Unknown()
  }

  function Unknown(): Tensor {
    Tensor(Ix(0, 0, 0, 0, 0), x => Undef)
  }

  function ApplyBinary(kind: Kind, a: Tensor, b: Tensor): Tensor {
    match kind
    case MatMul(ta, tb) => MatrixProduct(if ta then Transposed(a) else a, if tb then Transposed(b) else b)
    case Divide => Elementwise(Quotient, a, b)
    case Add => Elementwise(DualNumbers.Plus, a, b)
    case Subtract => Elementwise(Minus, a, b)
    case Multiply => Elementwise(Times, a, b)
    case _ => Unknown()
  }

  function ApplyUnary(m: ExpLog, kind: Kind, a: Tensor, k: int): Tensor {
    match kind
    case Exp => Tensor(a.dims, x => Exponential(m, a.at(x)))
    case SoftMax =>
      var n := Size(a.dims.c);
      if k == 0 then Tensor(a.dims, (x: Ix) => Softmax.Probability(m, n, RowOf(a, x.(c := 0)), x.c))
      else Tensor(a.dims.(c := 1), (x: Ix) => Softmax.Stats(m, n, RowOf(a, x.(c := 0))))
    case TypeCast => a
    case ReduceSum(axis) => Reduced(axis, a)
    case _ => Unknown()
  }

  /** The k-th output of an operation. */
  function Apply(m: ExpLog): Meaning<Kind, Tensor> {
    (kind: Kind, ins: seq<Tensor>, k: int) =>
      if |ins| == 2 then ApplyBinary(kind, ins[0], ins[1])
      else if |ins| == 1 then ApplyUnary(m, kind, ins[0], k)
      else Unknown()
  }

  // Reading tensors as matrices, one head at a time

  predicate InRange(dims: Ix, x: Ix) {
    0 <= x.b < dims.b && 0 <= x.g < dims.g && 0 <= x.r < dims.r && 0 <= x.i < dims.i && 0 <= x.c < dims.c
  }

  lemma GetInRange(t: Tensor, x: Ix)
    requires InRange(t.dims, x)
    ensures Get(t, x) == t.at(x)
  {
  }

  datatype Head = Head(b: int, g: int, r: int)

  function At(h: Head, i: int, c: int): Ix {
    Ix(h.b, h.g, h.r, i, c)
  }

  /** The m-by-n matrix of head h in t has values X and tangents X'. */
  ghost predicate IsDual(t: Tensor, h: Head, m: int, n: int, X: Matrix, X': Matrix) {
    forall i, c | 0 <= i < m && 0 <= c < n :: Get(t, At(h, i, c)) == Fin(X(i, c), X'(i, c))
  }

  /** The m-by-n matrix of head h in t has values X. */
  ghost predicate IsValue(t: Tensor, h: Head, m: int, n: int, X: Matrix) {
    forall i, c | 0 <= i < m && 0 <= c < n :: HasValue(Get(t, At(h, i, c)), X(i, c))
  }

  predicate HasValue(x: Num, v: real) {
    x.Fin? && x.v == v
  }

  /** One entry of a matrix product of finite rows and columns. */
  lemma ProductEntry(a: Tensor, b: Tensor, x: Ix, u: Vector, u': Vector, v: Vector, v': Vector)
    requires forall k | 0 <= k < Size(a.dims.c) :: Get(a, x.(c := k)) == Fin(u(k), u'(k))
    requires forall k | 0 <= k < Size(a.dims.c) :: Get(b, x.(i := k)) == Fin(v(k), v'(k))
    ensures var n := Size(a.dims.c); MatrixProduct(a, b).at(x) == Fin(Dot(n, u, v), Dot(n, u, v') + Dot(n, u', v))
  {
    hide Total, Sum, Get;
    var n := Size(a.dims.c);
    forall k | 0 <= k < n
      ensures Terms(a, b, x)(k) == Fin(Prod(u, v)(k), Added(Prod(u, v'), Prod(u', v))(k))
    {
      ProductTerm(a, b, x, u, u', v, v', k);
    }
    TotalIs(n, Terms(a, b, x), Prod(u, v), Added(Prod(u, v'), Prod(u', v)));
    SumAdd(n, Prod(u, v'), Prod(u', v));
  }

  lemma ProductTerm(a: Tensor, b: Tensor, x: Ix, u: Vector, u': Vector, v: Vector, v': Vector, k: int)
    requires Get(a, x.(c := k)) == Fin(u(k), u'(k)) && Get(b, x.(i := k)) == Fin(v(k), v'(k))
    ensures Terms(a, b, x)(k) == Fin(Prod(u, v)(k), Added(Prod(u, v'), Prod(u', v))(k))
  {
    hide Get;
  }

  lemma ProductValue(a: Tensor, b: Tensor, x: Ix, u: Vector, v: Vector)
    requires forall k | 0 <= k < Size(a.dims.c) :: HasValue(Get(a, x.(c := k)), u(k))
    requires forall k | 0 <= k < Size(a.dims.c) :: HasValue(Get(b, x.(i := k)), v(k))
    ensures HasValue(MatrixProduct(a, b).at(x), Dot(Size(a.dims.c), u, v))
  {
    ProductEntry(a, b, x, u, k => Tan(Get(a, x.(c := k))), v, k => Tan(Get(b, x.(i := k))));
  }

  lemma ReducedValue(axis: nat, t: Tensor, x: Ix, v: Vector)
    requires axis == 2 ==> forall r | 0 <= r < Size(t.dims.r) :: HasValue(Get(t, x.(r := r)), v(r))
    requires axis == 4 ==> forall c | 0 <= c < Size(t.dims.c) :: HasValue(Get(t, x.(c := c)), v(c))
    ensures axis == 2 ==> HasValue(Reduced(axis, t).at(x), Sum(Size(t.dims.r), v))
    ensures axis == 4 ==> HasValue(Reduced(axis, t).at(x), Sum(Size(t.dims.c), v))
  {
    if axis == 2 {
      TotalIs(Size(t.dims.r), GroupOf(t, x), v, r => Tan(Get(t, x.(r := r))));
    } else if axis == 4 {
      TotalIs(Size(t.dims.c), RowOf(t, x), v, c => Tan(Get(t, x.(c := c))));
    }
  }
}
