/** The stack parser for conditional directives and the tree it builds. */
module Conditionals {
  import opened Common
  import opened HeaderText

  /** A directive and the lines it spans once earlier #pragma once lines are gone. */
  datatype Directive = Directive(token: Token, start: nat, end: nat)

  datatype Block = Block(open: Directive, close: Directive, children: seq<Block>)

  predicate IsOpener(t: Token) {
    t.kind == "if" || t.kind == "ifdef" || t.kind == "ifndef"
  }

  predicate IsCloser(t: Token) {
    t.kind == "endif"
  }

  predicate IsOnce(t: Token) {
    t.kind == "pragma" && t.args.Some? && Strip(t.args.value) == "once"
  }

  predicate IsStructural(t: Token) {
    IsOpener(t) || IsCloser(t) || IsOnce(t)
  }

  // Token sequences

  function Bare(ds: seq<Directive>): seq<Token> {
    seq(|ds|, i requires 0 <= i < |ds| => ds[i].token)
  }

  /** The directives whose token is to be kept. */
  function Filter(keep: Token -> bool, ds: seq<Directive>): seq<Directive> {
    if ds == [] then []
    else Filter(keep, ds[..|ds| - 1]) + (if keep(ds[|ds| - 1].token) then [ds[|ds| - 1]] else [])
  }

  lemma FilterOfOne(keep: Token -> bool, d: Directive)
    ensures Filter(keep, [d]) == if keep(d.token) then [d] else []
  {
    assert [d][..0] == [];
  }

  lemma {:induction false} FilterOfSum(keep: Token -> bool, a: seq<Directive>, b: seq<Directive>)
    ensures Filter(keep, a + b) == Filter(keep, a) + Filter(keep, b)
    decreases |b|
  {
    if b == [] {
      assert a + b == a;
    } else {
      var n := |b| - 1;
      FilterOfSum(keep, a, b[..n]);
      assert (a + b)[..|a + b| - 1] == a + b[..n];
    }
  }

  function Structural(ds: seq<Directive>): seq<Directive> {
    Filter(IsStructural, ds)
  }

  /** How many conditionals are open after these tokens. */
  function Depth(ts: seq<Token>): int {
    if ts == [] then 0
    else
      var t := ts[|ts| - 1];
      Depth(ts[..|ts| - 1]) + (if IsOpener(t) then 1 else if IsCloser(t) then -1 else 0)
  }

  ghost predicate NeverNegative(ts: seq<Token>) {
    forall k | 0 <= k <= |ts| :: Depth(ts[..k]) >= 0
  }

  /** Every #endif closes an earlier #if and every #if is closed. */
  ghost predicate Balanced(ts: seq<Token>) {
    NeverNegative(ts) && Depth(ts) == 0
  }

  lemma {:induction false} DepthOfSum(a: seq<Token>, b: seq<Token>)
    ensures Depth(a + b) == Depth(a) + Depth(b)
    decreases |b|
  {
    if b == [] {
      assert a + b == a;
    } else {
      var n := |b| - 1;
      DepthOfSum(a, b[..n]);
      assert (a + b)[..|a + b| - 1] == a + b[..n];
    }
  }

  lemma BalancedSum(a: seq<Token>, b: seq<Token>)
    requires Balanced(a) && Balanced(b)
    ensures Balanced(a + b)
  {
    DepthOfSum(a, b);
    forall k | 0 <= k <= |a + b|
      ensures Depth((a + b)[..k]) >= 0
    {
      if k <= |a| {
        assert (a + b)[..k] == a[..k];
      } else {
        assert (a + b)[..k] == a + b[..k - |a|];
        DepthOfSum(a, b[..k - |a|]);
      }
    }
  }

  lemma DepthOfOne(t: Token)
    ensures Depth([t]) == if IsOpener(t) then 1 else if IsCloser(t) then -1 else 0
  {
    assert [t][..0] == [];
  }

  lemma BalancedPair(open: Token, m: seq<Token>, close: Token)
    requires IsOpener(open) && IsCloser(close) && Balanced(m)
    ensures Balanced([open] + m + [close])
  {
    var ts := [open] + m + [close];
    DepthOfOne(open);
    DepthOfOne(close);
    DepthOfSum([open], m);
    DepthOfSum([open] + m, [close]);
    forall k | 0 <= k <= |ts|
      ensures Depth(ts[..k]) >= 0
    {
      if k == |ts| {
        assert ts[..k] == ts;
      } else if k > 0 {
        assert ts[..k] == [open] + m[..k - 1];
        DepthOfSum([open], m[..k - 1]);
      }
    }
  }

  /** An opener has one matching #endif. */
  lemma MatchIsUnique(ts: seq<Token>, i: nat, m: seq<Token>, n: seq<Token>)
    requires Balanced(m) && Balanced(n)
    requires i + |m| < |ts| && ts[i..i + |m|] == m && IsCloser(ts[i + |m|])
    requires i + |n| < |ts| && ts[i..i + |n|] == n && IsCloser(ts[i + |n|])
    ensures m == n
  {
    if |m| < |n| {
      assert n[..|m| + 1] == m + [ts[i + |m|]];
      CloserGoesBelow(m, ts[i + |m|]);
    } else if |n| < |m| {
      assert m[..|n| + 1] == n + [ts[i + |n|]];
      CloserGoesBelow(n, ts[i + |n|]);
    }
  }

  lemma CloserGoesBelow(m: seq<Token>, close: Token)
    requires Depth(m) == 0 && IsCloser(close)
    ensures Depth(m + [close]) == -1
  {
    DepthOfSum(m, [close]);
    DepthOfOne(close);
  }

  // The tree

  function FlattenBlock(b: Block): seq<Directive>
    decreases b
  {
    if b.open.token.kind == "pragma" then [b.open] else [b.open] + Flatten(b.children) + [b.close]
  }

  /** The directives of a tree in the order of the file. */
  function Flatten(f: seq<Block>): seq<Directive>
    decreases f
  {
    if f == [] then [] else Flatten(f[..|f| - 1]) + FlattenBlock(f[|f| - 1])
  }

  ghost predicate IsBlock(b: Block)
    decreases b
  {
    || (IsOnce(b.open.token) && b.close == b.open && b.children == [])
    || (IsOpener(b.open.token) && IsCloser(b.close.token) && IsForest(b.children))
  }

  /** Every opener is paired with an #endif; a #pragma once stands alone. */
  ghost predicate IsForest(f: seq<Block>)
    decreases f
  {
    forall k | 0 <= k < |f| :: IsBlock(f[k])
  }

  lemma BareOfSum(a: seq<Directive>, b: seq<Directive>)
    ensures Bare(a + b) == Bare(a) + Bare(b)
  {
  }

  lemma {:induction false} BlockIsBalanced(b: Block)
    requires IsBlock(b)
    ensures Balanced(Bare(FlattenBlock(b)))
    decreases b
  {
    if IsOpener(b.open.token) {
      ForestIsBalanced(b.children);
      var m := Flatten(b.children);
      assert Bare(FlattenBlock(b)) == [b.open.token] + Bare(m) + [b.close.token];
      BalancedPair(b.open.token, Bare(m), b.close.token);
    } else {
      assert Bare(FlattenBlock(b)) == [b.open.token];
      DepthOfOne(b.open.token);
      assert forall k | 0 <= k <= 1 :: [b.open.token][..k] == [] || [b.open.token][..k] == [b.open.token];
    }
  }

  /** The tokens of a tree are balanced. */
  lemma {:induction false} ForestIsBalanced(f: seq<Block>)
    requires IsForest(f)
    ensures Balanced(Bare(Flatten(f)))
    decreases f
  {
    if f != [] {
      var n := |f| - 1;
      ForestIsBalanced(f[..n]);
      BlockIsBalanced(f[n]);
      BareOfSum(Flatten(f[..n]), FlattenBlock(f[n]));
      BalancedSum(Bare(Flatten(f[..n])), Bare(FlattenBlock(f[n])));
    }
  }

  // The parser

  /** The open conditionals, and for each nesting level the blocks found there. */
  datatype Parser = Mismatch | Parser(stack: seq<Directive>, blocks: seq<seq<Block>>)

  predicate Valid(p: Parser) {
    p.Mismatch? || |p.blocks| == |p.stack| + 1
  }

  const START := Parser([], [[]])

  function Append(blocks: seq<seq<Block>>, b: Block): seq<seq<Block>>
    requires blocks != []
  {
    blocks[|blocks| - 1 := blocks[|blocks| - 1] + [b]]
  }

  function Accept(p: Parser, d: Directive): (q: Parser)
    requires Valid(p)
    ensures Valid(q)
  {
    if p.Mismatch? then Mismatch
    else if d.token.kind == "endif" then
      if p.stack == [] then Mismatch
      else
        var n := |p.stack|;
        Parser(p.stack[..n - 1], Append(p.blocks[..n], Block(p.stack[n - 1], d, p.blocks[n])))
    else if d.token.kind == "pragma" then
      if IsOnce(d.token) then p.(blocks := Append(p.blocks, Block(d, d, []))) else p
    else if IsOpener(d.token) then Parser(p.stack + [d], p.blocks + [[]])
    else p
  }

  function ParseAll(ds: seq<Directive>): (p: Parser)
    ensures Valid(p)
  {
    if ds == [] then START else Accept(ParseAll(ds[..|ds| - 1]), ds[|ds| - 1])
  }

  /** The tree, when the parser ends with nothing open. */
  function Tree(p: Parser): Option<seq<Block>>
    requires Valid(p)
  {
    if p.Mismatch? || |p.blocks| != 1 then None else Some(p.blocks[0])
  }

  /** The parser's stacks as the directives read so far. */
  function Unfolded(stack: seq<Directive>, blocks: seq<seq<Block>>): seq<Directive>
    requires |blocks| == |stack| + 1
  {
    var n := |stack|;
    if n == 0 then Flatten(blocks[0])
    else Unfolded(stack[..n - 1], blocks[..n]) + [stack[n - 1]] + Flatten(blocks[n])
  }

  ghost predicate WellFormed(p: Parser) {
    p.Mismatch? || (
      && Valid(p)
      && (forall k | 0 <= k < |p.stack| :: IsOpener(p.stack[k].token))
      && (forall k | 0 <= k < |p.blocks| :: IsForest(p.blocks[k])))
  }

  lemma FlattenStep(f: seq<Block>, b: Block)
    ensures Flatten(f + [b]) == Flatten(f) + FlattenBlock(b)
  {
    assert (f + [b])[..|f|] == f;
  }

  lemma UnfoldedStep(stack: seq<Directive>, blocks: seq<seq<Block>>)
    requires |blocks| == |stack| + 1 > 1
    ensures var n := |stack|;
            Unfolded(stack, blocks) == Unfolded(stack[..n - 1], blocks[..n]) + [stack[n - 1]] + Flatten(blocks[n])
  {
  }

  lemma Regroup<T>(a: seq<T>, b: seq<T>, c: seq<T>)
    ensures a + (b + c) == a + b + c
  {
  }

  lemma UnfoldedAppend(stack: seq<Directive>, blocks: seq<seq<Block>>, b: Block)
    requires |blocks| == |stack| + 1
    ensures Unfolded(stack, Append(blocks, b)) == Unfolded(stack, blocks) + FlattenBlock(b)
  {
    hide Flatten, FlattenBlock;
    var n := |stack|;
    var after := Append(blocks, b);
    FlattenStep(blocks[n], b);
    if n > 0 {
      hide Unfolded;
      UnfoldedStep(stack, blocks);
      UnfoldedStep(stack, after);
      assert after[..n] == blocks[..n];
      Regroup(Unfolded(stack[..n - 1], blocks[..n]) + [stack[n - 1]], Flatten(blocks[n]), FlattenBlock(b));
    }
  }

  lemma ForestStep(f: seq<Block>, b: Block)
    requires IsForest(f) && IsBlock(b)
    ensures IsForest(f + [b])
  {
  }

  lemma AcceptIsWellFormed(p: Parser, d: Directive)
    requires Valid(p) && WellFormed(p)
    ensures WellFormed(Accept(p, d))
  {
    if p.Parser? {
      var n := |p.stack|;
      if IsCloser(d.token) && n > 0 {
        var b := Block(p.stack[n - 1], d, p.blocks[n]);
        assert IsBlock(b);
        ForestStep(p.blocks[n - 1], b);
        hide IsForest, IsBlock;
      } else if IsOnce(d.token) {
        var b := Block(d, d, []);
        assert IsBlock(b);
        ForestStep(p.blocks[n], b);
        hide IsForest, IsBlock;
      }
    }
  }

  lemma AcceptKeeps(p: Parser, d: Directive)
    requires Valid(p) && WellFormed(p) && p.Parser?
    ensures Accept(p, d).Parser? ==>
              var q := Accept(p, d);
              && Unfolded(q.stack, q.blocks) == Unfolded(p.stack, p.blocks) + (if IsStructural(d.token) then [d] else [])
              && |q.stack| == |p.stack| + Depth([d.token])
    ensures Accept(p, d).Mismatch? <==> p.stack == [] && IsCloser(d.token)
  {
    DepthOfOne(d.token);
    hide Depth;
    var n := |p.stack|;
    if IsCloser(d.token) && n > 0 {
      var b := Block(p.stack[n - 1], d, p.blocks[n]);
      UnfoldedAppend(p.stack[..n - 1], p.blocks[..n], b);
      UnfoldedStep(p.stack, p.blocks);
      var before := Unfolded(p.stack[..n - 1], p.blocks[..n]);
      Regroup(before, [b.open] + Flatten(b.children), [d]);
      Regroup(before, [b.open], Flatten(b.children));
    } else if IsOnce(d.token) {
      UnfoldedAppend(p.stack, p.blocks, Block(d, d, []));
    } else if IsOpener(d.token) {
      assert (p.stack + [d])[..n] == p.stack && (p.blocks + [[]])[..n + 1] == p.blocks;
    }
  }

  lemma BareStep(ds: seq<Directive>)
    requires ds != []
    ensures var n := |ds| - 1; Bare(ds) == Bare(ds[..n]) + [ds[n].token] && Bare(ds)[..n] == Bare(ds[..n])
  {
  }

  lemma NeverNegativeStep(ts: seq<Token>, t: Token)
    ensures NeverNegative(ts + [t]) <==> NeverNegative(ts) && Depth(ts + [t]) >= 0
  {
    var us := ts + [t];
    assert us[..|us|] == us;
    assert forall k | 0 <= k <= |ts| :: us[..k] == ts[..k];
  }

  /** The tree holds the openers, #endifs and #pragma once directives in order,
      and parsing stops exactly when an #endif has nothing to close. */
  lemma {:induction false} ParserInvariant(ds: seq<Directive>)
    ensures var p := ParseAll(ds);
            && WellFormed(p)
            && (p.Mismatch? <==> !NeverNegative(Bare(ds)))
            && (p.Parser? ==> Unfolded(p.stack, p.blocks) == Structural(ds) && |p.stack| == Depth(Bare(ds)))
  {
    if ds == [] {
      assert forall k | 0 <= k <= 0 :: Bare(ds)[..k] == [];
    } else {
      var n := |ds| - 1;
      ParserInvariant(ds[..n]);
      BareStep(ds);
      AcceptIsWellFormed(ParseAll(ds[..n]), ds[n]);
      if ParseAll(ds[..n]).Parser? {
        AcceptKeeps(ParseAll(ds[..n]), ds[n]);
      }
      NeverNegativeStep(Bare(ds[..n]), ds[n].token);
      DepthOfSum(Bare(ds[..n]), [ds[n].token]);
      DepthOfOne(ds[n].token);
    }
  }

  /** The scan fails exactly on unbalanced directives; otherwise the tree pairs
      each opener with its #endif, and flattening it gives the directives back. */
  lemma ScanFailsIffUnbalanced(ds: seq<Directive>)
    ensures var t := Tree(ParseAll(ds));
            && (t.Some? <==> Balanced(Bare(ds)))
            && (t.Some? ==> IsForest(t.value) && Flatten(t.value) == Structural(ds))
  {
    ParserInvariant(ds);
  }
}
