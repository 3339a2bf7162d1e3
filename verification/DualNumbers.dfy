/** Tensor elements.  A finite element carries a value and a tangent, so that
    evaluating a graph also evaluates its directional derivative; -infinity is
    the additive mask; Undef stands for every result that is neither. */
module DualNumbers {
  import opened Common
  import opened RealSums

  datatype Num = Fin(v: real, d: real) | NegInf | Undef

  /** The exponential and logarithm the library calls. */
  datatype ExpLog = ExpLog(exp: real -> real, log: real -> real)

  ghost predicate Lawful(m: ExpLog) {
    && IsExp(m.exp)
    && (forall x | x > 0.0 :: m.exp(m.log(x)) == x)
  }

  function Val(x: Num): real {
    if x.Fin? then x.v else 0.0
  }

  function Tan(x: Num): real {
    if x.Fin? then x.d else 0.0
  }

  /** Equal up to the tangent. */
  predicate SameValue(x: Num, y: Num) {
    (x.Fin? && y.Fin? && x.v == y.v) || (x.NegInf? && y.NegInf?)
  }

  function Plus(x: Num, y: Num): Num {
    if x.Fin? && y.Fin? then Fin(x.v + y.v, x.d + y.d)
    else if x.Undef? || y.Undef? then Undef
    else NegInf
  }

  function Minus(x: Num, y: Num): Num {
    if x.Fin? && y.Fin? then Fin(x.v - y.v, x.d - y.d)
    else if x.NegInf? && y.Fin? then NegInf
    else Undef
  }

  function Times(x: Num, y: Num): Num {
    if x.Fin? && y.Fin? then Fin(x.v * y.v, x.v * y.d + x.d * y.v) else Undef
  }

  function Quotient(x: Num, y: Num): Num {
    if x.Fin? && y.Fin? && y.v != 0.0
    then Fin(x.v / y.v, (x.d - x.v / y.v * y.d) / y.v)
    else Undef
  }

  function Exponential(m: ExpLog, x: Num): Num {
    match x
    case Fin(v, d) => Fin(m.exp(v), m.exp(v) * d)
    case NegInf => Fin(0.0, 0.0)
    case Undef => Undef
  }

  function Logarithm(m: ExpLog, x: Num): Num {
    if x.Fin? && x.v > 0.0 then Fin(m.log(x.v), x.d / x.v) else Undef
  }

  function Larger(x: Num, y: Num): Num {
    if x.Undef? || y.Undef? then Undef
    else if x.NegInf? then y
    else if y.NegInf? then x
    else if x.v >= y.v then x else y
  }

  function Total(n: nat, f: int -> Num): Num {
    if n == 0 then Fin(0.0, 0.0) else Plus(Total(n - 1, f), f(n - 1))
  }

  function Largest(n: nat, f: int -> Num): Num {
    if n == 0 then NegInf else Larger(Largest(n - 1, f), f(n - 1))
  }

  /** A total of finite elements is finite, and sums values and tangents. */
  lemma TotalIs(n: nat, f: int -> Num, v: int -> real, d: int -> real)
    requires forall i | 0 <= i < n :: f(i) == Fin(v(i), d(i))
    ensures Total(n, f) == Fin(Sum(n, v), Sum(n, d))
  {
  }

  /** The largest of elements that are finite or -infinity is one of them, or
      -infinity when none is finite. */
  lemma LargestIs(n: nat, f: int -> Num)
    requires forall i | 0 <= i < n :: !f(i).Undef?
    ensures Largest(n, f).NegInf? <==> forall i | 0 <= i < n :: f(i).NegInf?
    ensures !Largest(n, f).Undef?
  {
  }
}
