/** Query, key and value as strided views of one stacked buffer. */
module StackedViews {
  import opened FlatIndex

  datatype Dims = Dims(mb: nat, seqLen: nat, heads: nat, headSize: nat)

  /** Position in the stacked tensor: batch, step, head, part, element. */
  function Stacked(p: Dims, b: int, s: int, h: int, v: int, d: int): int {
    Cell(Cell(Cell(Cell(b, s, p.seqLen), h, p.heads), v, 3), d, p.headSize)
  }

  /** Elements of the whole buffer. */
  function Size(p: Dims): nat {
    p.mb * p.seqLen * p.heads * 3 * p.headSize
  }

  /** Position in view v: its offset plus strides for batch, head, step, element. */
  function ViewAt(p: Dims, v: int, b: int, h: int, s: int, d: int): int {
    v * p.headSize
    + b * (p.seqLen * p.heads * 3 * p.headSize) + h * (3 * p.headSize) + s * (p.heads * 3 * p.headSize) + d
  }

  predicate InRange(p: Dims, v: int, b: int, h: int, s: int, d: int) {
    0 <= v < 3 && 0 <= b < p.mb && 0 <= h < p.heads && 0 <= s < p.seqLen && 0 <= d < p.headSize
  }

  lemma Expand2(b: int, s: int, S: int, H: int)
    ensures (b * S + s) * H == b * (S * H) + s * H
  {
  }

  lemma Assoc(a: int, b: int, c: int)
    ensures a * b * c == a * (b * c)
  {
  }

  /** Element (b, h, s, d) of view v is element (b, s, h, v, d) of the stacked tensor. */
  lemma {:induction false} ViewIsStacked(p: Dims, v: int, b: int, h: int, s: int, d: int)
    ensures ViewAt(p, v, b, h, s, d) == Stacked(p, b, s, h, v, d)
  {
    var S, H, D := p.seqLen, p.heads, p.headSize;
    var row := b * S + s;
    calc {
      Stacked(p, b, s, h, v, d);
      ((row * H + h) * 3 + v) * D + d;
      { Expand2(row * H + h, v, 3, D); }
      (row * H + h) * (3 * D) + v * D + d;
      { Expand2(row, h, H, 3 * D); }
      row * (H * (3 * D)) + h * (3 * D) + v * D + d;
      { Expand2(b, s, S, H * (3 * D)); }
      b * (S * (H * (3 * D))) + s * (H * (3 * D)) + h * (3 * D) + v * D + d;
      { Assoc(H, 3, D); Assoc(S, H * 3, D); Assoc(S, H, 3); Assoc(S * H, 3, D); }
      ViewAt(p, v, b, h, s, d);
    }
  }

  /** Different elements of the views lie in different places, all in the buffer. */
  lemma {:induction false} ViewsAreApart(p: Dims, v: int, b: int, h: int, s: int, d: int, v': int, b': int, h': int, s': int, d': int)
    requires InRange(p, v, b, h, s, d) && InRange(p, v', b', h', s', d')
    ensures 0 <= ViewAt(p, v, b, h, s, d) < Size(p)
    ensures ViewAt(p, v, b, h, s, d) == ViewAt(p, v', b', h', s', d') ==> v == v' && b == b' && h == h' && s == s' && d == d'
  {
    hide Cell, ViewAt;
    ViewIsStacked(p, v, b, h, s, d);
    ViewIsStacked(p, v', b', h', s', d');
    var x, x' := Cell(b, s, p.seqLen), Cell(b', s', p.seqLen);
    var y, y' := Cell(x, h, p.heads), Cell(x', h', p.heads);
    var z, z' := Cell(y, v, 3), Cell(y', v', 3);
    CellInside(b, s, p.mb, p.seqLen);
    CellInside(x, h, p.mb * p.seqLen, p.heads);
    CellInside(y, v, p.mb * p.seqLen * p.heads, 3);
    CellInside(z, d, p.mb * p.seqLen * p.heads * 3, p.headSize);
    if Cell(z, d, p.headSize) == Cell(z', d', p.headSize) {
      CellApart(z, d, z', d', p.headSize);
      CellApart(y, v, y', v', 3);
      CellApart(x, h, x', h', p.heads);
      CellApart(b, s, b', s', p.seqLen);
    }
  }

  /** Every place of the buffer is an element of a view. */
  lemma {:induction false} ViewsCover(p: Dims, at: nat) returns (v: nat, b: nat, h: nat, s: nat, d: nat)
    requires at < Size(p)
    ensures InRange(p, v, b, h, s, d) && ViewAt(p, v, b, h, s, d) == at
  {
    hide Cell, ViewAt;
    var x, y, z: nat;
    z, d := RowAndColumn(at, p.mb * p.seqLen * p.heads * 3, p.headSize);
    y, v := RowAndColumn(z, p.mb * p.seqLen * p.heads, 3);
    x, h := RowAndColumn(y, p.mb * p.seqLen, p.heads);
    b, s := RowAndColumn(x, p.mb, p.seqLen);
    ViewIsStacked(p, v, b, h, s, d);
  }
}
