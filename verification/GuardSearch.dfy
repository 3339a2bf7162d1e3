/** The search of the conditional tree for include guards, #pragma once
    directives and a block that could be a guard under another name. */
module GuardSearch {
  import opened Common
  import opened HeaderText
  import opened Conditionals

  function IfndefArgument(t: Token): Option<string> {
    if t.kind != "ifndef" || t.args.None? then None else Some(Word(t.args.value))
  }

  predicate IsGuard(guard: string, t: Token) {
    IfndefArgument(t) == Some(guard)
  }

  function GuardsIn(guard: string, b: Block): seq<Block>
    decreases b
  {
    if b.open.token.kind == "pragma" then []
    else if IsGuard(guard, b.open.token) then [b]
    else Guards(guard, b.children)
  }

  /** The outermost blocks that open with the guard. */
  function Guards(guard: string, f: seq<Block>): seq<Block>
    decreases f
  {
    if f == [] then [] else Guards(guard, f[..|f| - 1]) + GuardsIn(guard, f[|f| - 1])
  }

  function PragmasIn(guard: string, b: Block): seq<Block>
    decreases b
  {
    if b.open.token.kind == "pragma" then [b]
    else if IsGuard(guard, b.open.token) then []
    else Pragmas(guard, b.children)
  }

  /** The #pragma once blocks outside every guard. */
  function Pragmas(guard: string, f: seq<Block>): seq<Block>
    decreases f
  {
    if f == [] then [] else Pragmas(guard, f[..|f| - 1]) + PragmasIn(guard, f[|f| - 1])
  }

  /** The outermost #ifndef that is reached through blocks without siblings. */
  function Alternate(f: seq<Block>): Option<Block>
    decreases f
  {
    if |f| != 1 then None
    else if f[0].open.token.kind == "ifndef" then Some(f[0])
    else if f[0].open.token.kind == "pragma" then None
    else Alternate(f[0].children)
  }

  /** Blocks each of which is the only one at its level, the first among f. */
  ghost predicate IsOnlyChain(f: seq<Block>, chain: seq<Block>) {
    && chain != [] && f == [chain[0]]
    && (forall k | 0 <= k < |chain| - 1 :: chain[k].children == [chain[k + 1]])
  }

  /** They lead through #if and #ifdef to an #ifndef. */
  ghost predicate LeadsToIfndef(chain: seq<Block>, b: Block) {
    && chain != [] && chain[|chain| - 1] == b && b.open.token.kind == "ifndef"
    && (forall k | 0 <= k < |chain| - 1 :: chain[k].open.token.kind != "ifndef" && chain[k].open.token.kind != "pragma")
  }

  lemma {:induction false} AlternateChain(f: seq<Block>) returns (chain: seq<Block>)
    requires Alternate(f).Some?
    ensures IsOnlyChain(f, chain) && LeadsToIfndef(chain, Alternate(f).value)
    decreases f
  {
    if f[0].open.token.kind == "ifndef" {
      chain := [f[0]];
    } else {
      var rest := AlternateChain(f[0].children);
      chain := [f[0]] + rest;
      assert forall k | 1 <= k < |chain| :: chain[k] == rest[k - 1];
    }
  }

  lemma {:induction false} ChainIsAlternate(f: seq<Block>, chain: seq<Block>, b: Block)
    requires IsOnlyChain(f, chain) && LeadsToIfndef(chain, b)
    ensures Alternate(f) == Some(b)
    decreases |chain|
  {
    if |chain| > 1 {
      var rest := chain[1..];
      assert forall k | 0 <= k < |rest| :: rest[k] == chain[k + 1];
      assert chain[0].children == [chain[0 + 1]];
      ChainIsAlternate(chain[0].children, rest, b);
    }
  }

  /** There is an alternate exactly if such blocks lead to it. */
  lemma {:induction false} AlternateIff(f: seq<Block>, b: Block)
    ensures Alternate(f) == Some(b) <==> exists chain :: IsOnlyChain(f, chain) && LeadsToIfndef(chain, b)
  {
    hide Alternate, IsOnlyChain, LeadsToIfndef;
    if Alternate(f) == Some(b) {
      var chain := AlternateChain(f);
    }
    if chain :| IsOnlyChain(f, chain) && LeadsToIfndef(chain, b) {
      ChainIsAlternate(f, chain, b);
    }
  }

  lemma SearchStep(guard: string, f: seq<Block>, i: nat)
    requires i < |f|
    ensures Guards(guard, f[..i + 1]) == Guards(guard, f[..i]) + GuardsIn(guard, f[i])
    ensures Pragmas(guard, f[..i + 1]) == Pragmas(guard, f[..i]) + PragmasIn(guard, f[i])
  {
    assert f[..i + 1][..i] == f[..i];
  }

  method FindGuardBlocks(guard: string, root: seq<Block>)
    returns (guards: seq<Block>, pragmas: seq<Block>, alternate: Option<Block>)
    ensures guards == Guards(guard, root) && pragmas == Pragmas(guard, root) && alternate == Alternate(root)
    decreases root
  {
    guards, pragmas, alternate := [], [], None;
    if |root| == 1 && root[0].open.token.kind == "ifndef" {
      alternate := Some(root[0]);
    }
    for i := 0 to |root|
      invariant guards == Guards(guard, root[..i]) && pragmas == Pragmas(guard, root[..i])
      invariant |root| == 1 && root[0].open.token.kind == "ifndef" ==> alternate == Some(root[0])
      invariant |root| != 1 ==> alternate == None
      invariant |root| == 1 && root[0].open.token.kind != "ifndef" ==>
                  alternate == if i == 0 || root[0].open.token.kind == "pragma" then None else Alternate(root[0].children)
    {
      var block := root[i];
      SearchStep(guard, root, i);
      if block.open.token.kind == "pragma" {
        pragmas := pragmas + [block];
        continue;
      }
      if IfndefArgument(block.open.token) == Some(guard) {
        guards := guards + [block];
        continue;
      }
      var blocks, inner, child := FindGuardBlocks(guard, block.children);
      guards := guards + blocks;
      pragmas := pragmas + inner;
      if |root| == 1 && alternate.None? {
        alternate := child;
      }
    }
    assert root[..|root|] == root;
  }

  // How many guards there are

  function Count(guard: string, ts: seq<Token>): nat {
    if ts == [] then 0 else Count(guard, ts[..|ts| - 1]) + (if IsGuard(guard, ts[|ts| - 1]) then 1 else 0)
  }

  lemma {:induction false} CountOfSum(guard: string, a: seq<Token>, b: seq<Token>)
    ensures Count(guard, a + b) == Count(guard, a) + Count(guard, b)
    decreases |b|
  {
    if b == [] {
      assert a + b == a;
    } else {
      var n := |b| - 1;
      CountOfSum(guard, a, b[..n]);
      assert (a + b)[..|a + b| - 1] == a + b[..n];
    }
  }

  lemma CountOfOne(guard: string, t: Token)
    ensures Count(guard, [t]) == if IsGuard(guard, t) then 1 else 0
  {
    assert [t][..0] == [];
  }

  lemma {:induction false} CountIn(guard: string, b: Block)
    requires IsBlock(b)
    ensures |GuardsIn(guard, b)| <= Count(guard, Bare(FlattenBlock(b)))
    ensures Count(guard, Bare(FlattenBlock(b))) > 0 ==> |GuardsIn(guard, b)| > 0
    decreases b
  {
    var open, close := b.open.token, b.close.token;
    CountOfOne(guard, open);
    CountOfOne(guard, close);
    if IsOpener(open) {
      var m := Bare(Flatten(b.children));
      assert Bare(FlattenBlock(b)) == [open] + m + [close];
      CountOfSum(guard, [open], m);
      CountOfSum(guard, [open] + m, [close]);
      if !IsGuard(guard, open) {
        GuardsAreCounted(guard, b.children);
      }
    } else {
      assert Bare(FlattenBlock(b)) == [open];
    }
  }

  /** There are no more guards than #ifndefs of that name, and none only if there are none. */
  lemma {:induction false} GuardsAreCounted(guard: string, f: seq<Block>)
    requires IsForest(f)
    ensures |Guards(guard, f)| <= Count(guard, Bare(Flatten(f)))
    ensures Count(guard, Bare(Flatten(f))) > 0 ==> |Guards(guard, f)| > 0
    decreases f
  {
    if f != [] {
      var n := |f| - 1;
      GuardsAreCounted(guard, f[..n]);
      CountIn(guard, f[n]);
      BareOfSum(Flatten(f[..n]), FlattenBlock(f[n]));
      CountOfSum(guard, Bare(Flatten(f[..n])), Bare(FlattenBlock(f[n])));
    }
  }

  // Where a block stands

  ghost predicate StandsAt(b: Block, ds: seq<Directive>, i: nat) {
    i + |FlattenBlock(b)| <= |ds| && ds[i..i + |FlattenBlock(b)|] == FlattenBlock(b)
  }

  lemma {:induction false} StandsInSum(b: Block, a: seq<Directive>, ds: seq<Directive>, c: seq<Directive>, i: nat)
    requires StandsAt(b, ds, i)
    ensures StandsAt(b, a + ds + c, |a| + i)
  {
    hide FlattenBlock;
    SliceOfSum(a, ds, c, i, i + |FlattenBlock(b)|);
  }

  lemma FlattenLast(f: seq<Block>)
    requires f != []
    ensures Flatten(f) == Flatten(f[..|f| - 1]) + FlattenBlock(f[|f| - 1])
  {
  }

  lemma SliceOfSum<T>(a: seq<T>, b: seq<T>, c: seq<T>, i: nat, j: nat)
    requires i <= j <= |b|
    ensures (a + b + c)[|a| + i..|a| + j] == b[i..j]
  {
  }

  lemma {:induction false} StandsInForest(b: Block, f: seq<Block>, i: nat)
    requires f != [] && StandsAt(b, Flatten(f[..|f| - 1]), i)
    ensures StandsAt(b, Flatten(f), i)
  {
    FlattenLast(f);
    hide Flatten, FlattenBlock, StandsAt;
    var ds, c := Flatten(f[..|f| - 1]), FlattenBlock(f[|f| - 1]);
    StandsInSum(b, [], ds, c, i);
    assert [] + ds + c == ds + c;
  }

  lemma {:induction false} StandsInLast(b: Block, f: seq<Block>, i: nat)
    requires f != [] && StandsAt(b, FlattenBlock(f[|f| - 1]), i)
    ensures StandsAt(b, Flatten(f), |Flatten(f[..|f| - 1])| + i)
  {
    FlattenLast(f);
    hide Flatten, FlattenBlock, StandsAt;
    var a, ds := Flatten(f[..|f| - 1]), FlattenBlock(f[|f| - 1]);
    StandsInSum(b, a, ds, [], i);
    assert a + ds + [] == a + ds;
  }

  lemma {:induction false} StandsInChild(b: Block, parent: Block, i: nat)
    requires parent.open.token.kind != "pragma" && StandsAt(b, Flatten(parent.children), i)
    ensures StandsAt(b, FlattenBlock(parent), 1 + i)
  {
    StandsInSum(b, [parent.open], Flatten(parent.children), [parent.close], i);
  }

  /** A block of the search result: part of the tree, at a known place. */
  ghost predicate Inside(b: Block, ds: seq<Directive>) {
    IsBlock(b) && b.open.token.kind == "ifndef" && exists i: nat :: StandsAt(b, ds, i)
  }

  lemma {:induction false} GuardStandsIn(guard: string, b: Block, k: nat)
    requires IsBlock(b) && k < |GuardsIn(guard, b)|
    ensures Inside(GuardsIn(guard, b)[k], FlattenBlock(b)) && IsGuard(guard, GuardsIn(guard, b)[k].open.token)
    decreases b
  {
    if IsGuard(guard, b.open.token) {
      assert StandsAt(b, FlattenBlock(b), 0);
    } else {
      GuardStands(guard, b.children, k);
      var g := Guards(guard, b.children)[k];
      var i: nat :| StandsAt(g, Flatten(b.children), i);
      StandsInChild(g, b, i);
    }
  }

  lemma {:induction false} GuardStands(guard: string, f: seq<Block>, k: nat)
    requires IsForest(f) && k < |Guards(guard, f)|
    ensures Inside(Guards(guard, f)[k], Flatten(f)) && IsGuard(guard, Guards(guard, f)[k].open.token)
    decreases f
  {
    var n := |f| - 1;
    var before := |Guards(guard, f[..n])|;
    if k < before {
      GuardStands(guard, f[..n], k);
      var g := Guards(guard, f[..n])[k];
      var i: nat :| StandsAt(g, Flatten(f[..n]), i);
      StandsInForest(g, f, i);
    } else {
      GuardStandsIn(guard, f[n], k - before);
      var g := GuardsIn(guard, f[n])[k - before];
      var i: nat :| StandsAt(g, FlattenBlock(f[n]), i);
      StandsInLast(g, f, i);
    }
  }

  lemma {:induction false} AlternateStands(f: seq<Block>)
    requires IsForest(f) && Alternate(f).Some?
    ensures Inside(Alternate(f).value, Flatten(f))
    decreases f
  {
    var b := f[0];
    if b.open.token.kind == "ifndef" {
      assert StandsAt(b, FlattenBlock(b), 0);
      StandsInLast(b, f, 0);
    } else {
      AlternateStands(b.children);
      var a := Alternate(b.children).value;
      var i: nat :| StandsAt(a, Flatten(b.children), i);
      StandsInChild(a, b, i);
      StandsInLast(a, f, 1 + i);
    }
  }

  // Which #pragma once directives are found

  function Onces(ds: seq<Directive>): seq<Directive> {
    Filter(IsOnce, ds)
  }

  function AsBlocks(ds: seq<Directive>): seq<Block> {
    seq(|ds|, i requires 0 <= i < |ds| => Block(ds[i], ds[i], []))
  }

  lemma AsBlocksOfSum(a: seq<Directive>, b: seq<Directive>)
    ensures AsBlocks(a + b) == AsBlocks(a) + AsBlocks(b)
  {
  }

  /** No guard has a #pragma once in it. */
  ghost predicate NoOnceInside(guards: seq<Block>) {
    forall k | 0 <= k < |guards| :: Onces(Flatten(guards[k].children)) == []
  }

  lemma {:induction false} PragmasInAre(guard: string, b: Block)
    requires IsBlock(b) && NoOnceInside(GuardsIn(guard, b))
    ensures PragmasIn(guard, b) == AsBlocks(Onces(FlattenBlock(b)))
    decreases b
  {
    FilterOfOne(IsOnce, b.open);
    FilterOfOne(IsOnce, b.close);
    if IsOpener(b.open.token) {
      var m := Flatten(b.children);
      FilterOfSum(IsOnce, [b.open], m);
      FilterOfSum(IsOnce, [b.open] + m, [b.close]);
      assert Onces(FlattenBlock(b)) == Onces(m);
      if IsGuard(guard, b.open.token) {
        assert Onces(Flatten(GuardsIn(guard, b)[0].children)) == [];
      } else {
        PragmasAre(guard, b.children);
      }
    }
  }

  /** Then every #pragma once of the file is found, in order. */
  lemma {:induction false} PragmasAre(guard: string, f: seq<Block>)
    requires IsForest(f) && NoOnceInside(Guards(guard, f))
    ensures Pragmas(guard, f) == AsBlocks(Onces(Flatten(f)))
    decreases f
  {
    if f != [] {
      var n := |f| - 1;
      assert forall k | 0 <= k < |Guards(guard, f[..n])| :: Guards(guard, f[..n])[k] == Guards(guard, f)[k];
      assert forall k | 0 <= k < |GuardsIn(guard, f[n])| ::
          GuardsIn(guard, f[n])[k] == Guards(guard, f)[|Guards(guard, f[..n])| + k];
      PragmasAre(guard, f[..n]);
      PragmasInAre(guard, f[n]);
      FilterOfSum(IsOnce, Flatten(f[..n]), FlattenBlock(f[n]));
      AsBlocksOfSum(Onces(Flatten(f[..n])), Onces(FlattenBlock(f[n])));
    }
  }

  lemma {:induction false} OncesAreStructural(ds: seq<Directive>)
    ensures Onces(Structural(ds)) == Onces(ds)
  {
    if ds != [] {
      var n := |ds| - 1;
      OncesAreStructural(ds[..n]);
      FilterOfOne(IsOnce, ds[n]);
      if IsStructural(ds[n].token) {
        FilterOfSum(IsOnce, Structural(ds[..n]), [ds[n]]);
      } else {
        assert Structural(ds) == Structural(ds[..n]);
      }
    }
  }

  // Matching openers and #endifs in a sequence of directives

  /** The #endif at j closes the conditional opened at i. */
  ghost predicate Pair(ds: seq<Directive>, i: nat, j: nat) {
    i < j < |ds| && IsOpener(ds[i].token) && IsCloser(ds[j].token) && Balanced(Bare(ds[i + 1..j]))
  }

  lemma {:induction false} PairIsUnique(ds: seq<Directive>, i: nat, j: nat, k: nat)
    requires Pair(ds, i, j) && Pair(ds, i, k)
    ensures j == k
  {
    hide Balanced, IsOpener;
    var ts := Bare(ds);
    assert Bare(ds[i + 1..j]) == ts[i + 1..j] && Bare(ds[i + 1..k]) == ts[i + 1..k];
    MatchIsUnique(ts, i + 1, ts[i + 1..j], ts[i + 1..k]);
  }

  /** A filter that keeps what opens and closes conditionals. */
  ghost predicate KeepsConditionals(keep: Token -> bool) {
    forall t | IsOpener(t) || IsCloser(t) :: keep(t)
  }

  lemma {:induction false} FilterDepth(keep: Token -> bool, ds: seq<Directive>)
    requires KeepsConditionals(keep)
    ensures Depth(Bare(Filter(keep, ds))) == Depth(Bare(ds))
  {
    if ds != [] {
      var n := |ds| - 1;
      FilterDepth(keep, ds[..n]);
      BareStep(ds);
      if keep(ds[n].token) {
        BareStep(Filter(keep, ds));
        assert Filter(keep, ds)[..|Filter(keep, ds)| - 1] == Filter(keep, ds[..n]);
      } else {
        assert Filter(keep, ds) == Filter(keep, ds[..n]);
      }
    }
  }

  lemma {:induction false} FilterSplit(keep: Token -> bool, ds: seq<Directive>, k: nat)
    requires k <= |ds|
    ensures Filter(keep, ds) == Filter(keep, ds[..k]) + Filter(keep, ds[k..])
  {
    assert ds == ds[..k] + ds[k..];
    FilterOfSum(keep, ds[..k], ds[k..]);
  }

  /** Each kept directive stands somewhere in the whole sequence. */
  lemma {:induction false} FilterLift(keep: Token -> bool, ds: seq<Directive>, i: nat) returns (j: nat)
    requires i < |Filter(keep, ds)|
    ensures j < |ds| && ds[j] == Filter(keep, ds)[i] && keep(ds[j].token)
    ensures Filter(keep, ds[..j]) == Filter(keep, ds)[..i]
    decreases |ds|
  {
    var n := |ds| - 1;
    var front := Filter(keep, ds[..n]);
    if i < |front| {
      j := FilterLift(keep, ds[..n], i);
      assert ds[..n][..j] == ds[..j];
    } else {
      j := n;
    }
  }

  lemma {:induction false} PrefixIsFiltered(keep: Token -> bool, ds: seq<Directive>, k: nat)
    requires k <= |ds|
    ensures |Filter(keep, ds[..k])| <= |Filter(keep, ds)|
    ensures Filter(keep, ds[..k]) == Filter(keep, ds)[..|Filter(keep, ds[..k])|]
  {
    FilterSplit(keep, ds, k);
  }

  lemma BareTake(ds: seq<Directive>, k: nat)
    requires k <= |ds|
    ensures Bare(ds)[..k] == Bare(ds[..k])
  {
  }

  lemma {:induction false} FilterBalanced(keep: Token -> bool, ds: seq<Directive>)
    requires KeepsConditionals(keep)
    ensures Balanced(Bare(Filter(keep, ds))) <==> Balanced(Bare(ds))
  {
    var fs := Filter(keep, ds);
    FilterDepth(keep, ds);
    if Balanced(Bare(fs)) {
      forall k | 0 <= k <= |ds|
        ensures Depth(Bare(ds)[..k]) >= 0
      {
        BareTake(ds, k);
        FilterDepth(keep, ds[..k]);
        PrefixIsFiltered(keep, ds, k);
        BareTake(fs, |Filter(keep, ds[..k])|);
      }
    }
    if Balanced(Bare(ds)) {
      forall i | 0 <= i <= |fs|
        ensures Depth(Bare(fs)[..i]) >= 0
      {
        BareTake(fs, i);
        if i < |fs| {
          var j := FilterLift(keep, ds, i);
          FilterDepth(keep, ds[..j]);
          BareTake(ds, j);
        } else {
          assert fs[..i] == fs && Bare(ds)[..|ds|] == Bare(ds);
        }
      }
    }
  }

  lemma {:induction false} FilterGrows(keep: Token -> bool, ds: seq<Directive>, k: nat, l: nat)
    requires k <= l <= |ds|
    ensures |Filter(keep, ds[..k])| <= |Filter(keep, ds[..l])|
  {
    PrefixIsFiltered(keep, ds[..l], k);
    assert ds[..l][..k] == ds[..k];
  }

  /** A pair among the kept directives is a pair of the whole sequence. */
  lemma {:induction false} PairLifts(keep: Token -> bool, ds: seq<Directive>, i: nat, j: nat) returns (k: nat, l: nat)
    requires KeepsConditionals(keep) && Pair(Filter(keep, ds), i, j)
    ensures Pair(ds, k, l) && ds[k] == Filter(keep, ds)[i] && ds[l] == Filter(keep, ds)[j]
    ensures Filter(keep, ds[..k]) == Filter(keep, ds)[..i] && Filter(keep, ds[..l]) == Filter(keep, ds)[..j]
  {
    var fs := Filter(keep, ds);
    k := FilterLift(keep, ds, i);
    l := FilterLift(keep, ds, j);
    if l <= k {
      FilterGrows(keep, ds, l, k);
    }
    FilterBetween(keep, ds, k, l);
    FilterBalanced(keep, ds[k + 1..l]);
  }

  /** What is kept strictly between two kept directives. */
  lemma {:induction false} FilterBetween(keep: Token -> bool, ds: seq<Directive>, k: nat, l: nat)
    requires k < l < |ds| && keep(ds[k].token)
    ensures var i, j := |Filter(keep, ds[..k])|, |Filter(keep, ds[..l])|;
            && i < j <= |Filter(keep, ds)| && Filter(keep, ds)[i] == ds[k]
            && Filter(keep, ds)[i + 1..j] == Filter(keep, ds[k + 1..l])
  {
    var a, b := ds[..k], ds[k + 1..l];
    assert ds[..l] == a + [ds[k]] + b;
    FilterOfSum(keep, a, [ds[k]]);
    FilterOfSum(keep, a + [ds[k]], b);
    FilterOfOne(keep, ds[k]);
    PrefixIsFiltered(keep, ds, l);
  }

  /** A pair of the whole sequence is a pair among the kept directives. */
  lemma {:induction false} PairDrops(keep: Token -> bool, ds: seq<Directive>, k: nat, l: nat) returns (i: nat, j: nat)
    requires KeepsConditionals(keep) && Pair(ds, k, l)
    ensures i == |Filter(keep, ds[..k])| && j == |Filter(keep, ds[..l])|
    ensures Pair(Filter(keep, ds), i, j) && Filter(keep, ds)[i] == ds[k] && Filter(keep, ds)[j] == ds[l]
  {
    i, j := |Filter(keep, ds[..k])|, |Filter(keep, ds[..l])|;
    FilterBetween(keep, ds, k, l);
    FilterBalanced(keep, ds[k + 1..l]);
    FilterSplit(keep, ds, l);
    assert ds[l..] == [ds[l]] + ds[l + 1..];
    FilterOfSum(keep, [ds[l]], ds[l + 1..]);
    FilterOfOne(keep, ds[l]);
  }

  lemma Middle<T>(s: seq<T>, p: nat, a: T, m: seq<T>, b: T)
    requires p + |m| + 2 <= |s| && s[p..p + |m| + 2] == [a] + m + [b]
    ensures s[p] == a && s[p + |m| + 1] == b && s[p + 1..p + |m| + 1] == m
  {
    var t := [a] + m + [b];
    assert s[p] == t[0] && s[p + |m| + 1] == t[|m| + 1];
    forall k | 0 <= k < |m|
      ensures s[p + 1..p + |m| + 1][k] == m[k]
    {
      assert s[p..p + |m| + 2][k + 1] == t[k + 1];
    }
  }

  /** The directives of a block of the tree are a pair of the file. */
  lemma {:induction false} BlockIsPair(b: Block, ds: seq<Directive>, p: nat) returns (i: nat, j: nat)
    requires IsBlock(b) && b.open.token.kind == "ifndef" && StandsAt(b, Structural(ds), p)
    ensures Pair(ds, i, j) && ds[i] == b.open && ds[j] == b.close
    ensures Structural(ds[..i]) == Structural(ds)[..p]
    ensures Structural(ds[..j]) == Structural(ds)[..p + |FlattenBlock(b)| - 1]
  {
    var fs, m := Structural(ds), Flatten(b.children);
    var n := |FlattenBlock(b)|;
    assert fs[p..p + n] == [b.open] + m + [b.close];
    ForestIsBalanced(b.children);
    hide Flatten, Filter, Balanced, FlattenBlock;
    Middle(fs, p, b.open, m, b.close);
    i, j := PairLifts(IsStructural, ds, p, p + n - 1);
  }

  // The first guard

  lemma {:induction false} FilterCount(guard: string, keep: Token -> bool, ds: seq<Directive>)
    requires KeepsConditionals(keep)
    ensures Count(guard, Bare(Filter(keep, ds))) == Count(guard, Bare(ds))
  {
    if ds != [] {
      var n := |ds| - 1;
      FilterCount(guard, keep, ds[..n]);
      BareStep(ds);
      if keep(ds[n].token) {
        BareStep(Filter(keep, ds));
        assert Filter(keep, ds)[..|Filter(keep, ds)| - 1] == Filter(keep, ds[..n]);
      } else {
        assert Filter(keep, ds) == Filter(keep, ds[..n]);
      }
    }
  }

  /** Where the first guard stands: none is before it, and others are found
      exactly if their names appear after it. */
  ghost predicate IsFirst(guard: string, b: Block, ds: seq<Directive>, p: nat, more: bool) {
    && IsBlock(b) && IsGuard(guard, b.open.token) && StandsAt(b, ds, p)
    && Count(guard, Bare(ds[..p])) == 0
    && (more <==> Count(guard, Bare(ds[p + |FlattenBlock(b)|..])) > 0)
  }

  lemma FirstInSum(guard: string, b: Block, a: seq<Directive>, ds: seq<Directive>, c: seq<Directive>, p: nat, more: bool)
    requires IsFirst(guard, b, ds, p, more) && Count(guard, Bare(a)) == 0
    ensures IsFirst(guard, b, a + ds + c, |a| + p, more || Count(guard, Bare(c)) > 0)
  {
    hide IsBlock, FlattenBlock, Count, Bare, IsGuard;
    var s, n := a + ds + c, |FlattenBlock(b)|;
    SliceOfSum(a, ds, c, p, p + n);
    assert s[..|a| + p] == a + ds[..p];
    BareOfSum(a, ds[..p]);
    CountOfSum(guard, Bare(a), Bare(ds[..p]));
    assert s[|a| + p + n..] == ds[p + n..] + c;
    BareOfSum(ds[p + n..], c);
    CountOfSum(guard, Bare(ds[p + n..]), Bare(c));
  }

  lemma {:induction false} FirstIn(guard: string, b: Block) returns (p: nat)
    requires IsBlock(b) && GuardsIn(guard, b) != []
    ensures IsFirst(guard, GuardsIn(guard, b)[0], FlattenBlock(b), p, |GuardsIn(guard, b)| > 1)
    decreases b
  {
    hide Flatten, Count, IsFirst, Guards;
    if IsGuard(guard, b.open.token) {
      p := 0;
      FirstIsWhole(guard, b);
    } else {
      var q := FirstGuard(guard, b.children);
      CountOfOne(guard, b.open.token);
      CountOfOne(guard, b.close.token);
      assert Bare([b.open]) == [b.open.token] && Bare([b.close]) == [b.close.token];
      FirstInSum(guard, Guards(guard, b.children)[0], [b.open], Flatten(b.children), [b.close], q, |Guards(guard, b.children)| > 1);
      p := 1 + q;
    }
  }

  lemma FirstIsWhole(guard: string, b: Block)
    requires IsBlock(b) && IsGuard(guard, b.open.token)
    ensures IsFirst(guard, b, FlattenBlock(b), 0, false)
  {
    hide IsBlock, FlattenBlock;
    var ds := FlattenBlock(b);
    assert ds[..0] == [] && ds[|ds|..] == [] && ds[0..|ds|] == ds;
    assert Bare([]) == [];
  }

  lemma {:induction false} FirstGuard(guard: string, f: seq<Block>) returns (p: nat)
    requires IsForest(f) && Guards(guard, f) != []
    ensures IsFirst(guard, Guards(guard, f)[0], Flatten(f), p, |Guards(guard, f)| > 1)
    decreases f
  {
    hide FlattenBlock, Flatten, Count, Bare, IsBlock, IsGuard, IsFirst, Guards, GuardsIn;
    GuardsLast(guard, f);
    var n := |f| - 1;
    var front := f[..n];
    GuardsAreCounted(guard, front);
    CountIn(guard, f[n]);
    FlattenLast(f);
    NothingCounted(guard);
    var g, h := Guards(guard, front), GuardsIn(guard, f[n]);
    if g != [] {
      p := FirstGuard(guard, front);
      FirstInSum(guard, g[0], [], Flatten(front), FlattenBlock(f[n]), p, |g| > 1);
      assert [] + Flatten(front) + FlattenBlock(f[n]) == Flatten(f);
    } else {
      var q := FirstIn(guard, f[n]);
      FirstInSum(guard, h[0], Flatten(front), FlattenBlock(f[n]), [], q, |h| > 1);
      assert Flatten(front) + FlattenBlock(f[n]) + [] == Flatten(f);
      p := |Flatten(front)| + q;
    }
  }

  lemma {:induction false} GuardsLast(guard: string, f: seq<Block>)
    ensures f == [] ==> Guards(guard, f) == []
    ensures f != [] ==> Guards(guard, f) == Guards(guard, f[..|f| - 1]) + GuardsIn(guard, f[|f| - 1])
  {
  }

  lemma NothingCounted(guard: string)
    ensures Count(guard, Bare([])) == 0
  {
  }
}
