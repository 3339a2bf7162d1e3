/** Tensors stored in buffers under a layout, which says where each logical
    element lies; a buffer may have padding. */
module Layouts {
  type Tensor = seq<real>

  datatype Layout = Layout(offsets: seq<nat>, size: nat)

  predicate InBounds(l: Layout) {
    forall i | 0 <= i < |l.offsets| :: l.offsets[i] < l.size
  }

  predicate Injective(l: Layout) {
    forall i, j | 0 <= i < |l.offsets| && 0 <= j < |l.offsets| && l.offsets[i] == l.offsets[j] :: i == j
  }

  predicate IsLayout(l: Layout) {
    InBounds(l) && Injective(l)
  }

  /** The logical tensor a buffer holds. */
  function Gather(l: Layout, buffer: Tensor): (t: Tensor)
    requires InBounds(l) && |buffer| == l.size
    ensures |t| == |l.offsets|
  {
    seq(|l.offsets|, i requires 0 <= i < |l.offsets| => buffer[l.offsets[i]])
  }

  /** The buffer after the first n elements of a tensor were stored. */
  function ScatterFirst(l: Layout, t: Tensor, buffer: Tensor, n: nat): (b: Tensor)
    requires InBounds(l) && |buffer| == l.size && |t| == |l.offsets| && n <= |t|
    ensures |b| == l.size
  {
    if n == 0 then buffer else ScatterFirst(l, t, buffer, n - 1)[l.offsets[n - 1] := t[n - 1]]
  }

  function Scatter(l: Layout, t: Tensor, buffer: Tensor): (b: Tensor)
    requires InBounds(l) && |buffer| == l.size && |t| == |l.offsets|
    ensures |b| == l.size
  {
    ScatterFirst(l, t, buffer, |t|)
  }

  lemma {:induction false} ScatterHolds(l: Layout, t: Tensor, buffer: Tensor, n: nat, i: nat)
    requires IsLayout(l) && |buffer| == l.size && |t| == |l.offsets| && i < n <= |t|
    ensures ScatterFirst(l, t, buffer, n)[l.offsets[i]] == t[i]
  {
    if i < n - 1 {
      ScatterHolds(l, t, buffer, n - 1, i);
    }
  }

  /** What is stored under a layout is read back. */
  lemma {:induction false} GatherUndoesScatter(l: Layout, t: Tensor, buffer: Tensor)
    requires IsLayout(l) && |buffer| == l.size && |t| == |l.offsets|
    ensures Gather(l, Scatter(l, t, buffer)) == t
  {
    forall i | 0 <= i < |t|
      ensures Gather(l, Scatter(l, t, buffer))[i] == t[i]
    {
      ScatterHolds(l, t, buffer, |t|, i);
    }
  }

  /** A layout that puts two elements in one place loses some tensor. */
  lemma {:induction false} AliasingLosesData(l: Layout, i: nat, j: nat, buffer: Tensor) returns (t: Tensor)
    requires InBounds(l) && i < j < |l.offsets| && l.offsets[i] == l.offsets[j] && |buffer| == l.size
    ensures |t| == |l.offsets| && Gather(l, Scatter(l, t, buffer)) != t
  {
    t := seq(|l.offsets|, k => if k == i then 1.0 else 0.0);
    var b := Scatter(l, t, buffer);
    assert Gather(l, b)[i] == Gather(l, b)[j];
    assert t[i] != t[j];
  }

  /** Storing and reading back is the identity exactly for layouts that put
      every element in a place of its own. */
  lemma {:induction false} RoundTripIff(l: Layout, buffer: Tensor)
    requires InBounds(l) && |buffer| == l.size
    ensures (forall t: Tensor | |t| == |l.offsets| :: Gather(l, Scatter(l, t, buffer)) == t) <==> Injective(l)
  {
    if Injective(l) {
      forall t: Tensor | |t| == |l.offsets|
        ensures Gather(l, Scatter(l, t, buffer)) == t
      {
        GatherUndoesScatter(l, t, buffer);
      }
    } else {
      var i, j :| 0 <= i < |l.offsets| && 0 <= j < |l.offsets| && l.offsets[i] == l.offsets[j] && i != j;
      var t;
      if i < j {
        t := AliasingLosesData(l, i, j, buffer);
      } else {
        t := AliasingLosesData(l, j, i, buffer);
      }
    }
  }
}
