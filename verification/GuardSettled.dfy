/** When the fixer finds nothing to do. */
module GuardSettled {
  import opened Common
  import opened HeaderText
  import opened Splicing
  import opened Conditionals
  import opened GuardSearch
  import opened DirectiveScan
  import opened PragmaRemoval
  import opened HeaderGuard

  // When the scan succeeds

  ghost predicate AllNamed(gs: seq<Lines>)
    requires AreGroups(gs)
  {
    forall k | 0 <= k < |gs| :: !Parse(Text(gs[k])).Nameless?
  }

  lemma {:induction false} GoingIff(gs: seq<Lines>)
    requires AreGroups(gs)
    ensures ProgressAfter(gs) == Going <==> AllNamed(gs) && NeverNegative(Bare(Located(gs)))
    decreases |gs|
  {
    hide Located, ParseAll, Bare, Parse, Text, IsGroup, NeverNegative;
    ParserInvariant(Located(gs));
    if gs == [] {
      EmptyIsGoing();
    } else {
      var front, g := FrontAndLast(gs);
      GoingIff(front);
      ParserInvariant(Located(front));
      LocatedAppend(front, g);
      if ParseAll(Located(front)).Mismatch? {
        NegativeStays(Located(front), Located(gs));
      }
    }
  }

  lemma EmptyIsGoing()
    ensures Located([]) == [] && NeverNegative(Bare([]))
  {
    assert forall k | 0 <= k <= 0 :: Bare([])[..k] == [];
  }

  lemma {:induction false} NegativeStays(a: seq<Directive>, b: seq<Directive>)
    requires a <= b && !NeverNegative(Bare(a))
    ensures !NeverNegative(Bare(b))
  {
    var k :| 0 <= k <= |Bare(a)| && Depth(Bare(a)[..k]) < 0;
    assert Bare(b)[..k] == Bare(a)[..k];
  }

  /** The scan gives a tree exactly if no directive is a lone # and the
      conditionals are balanced. */
  lemma {:induction false} ScanSucceedsIff(gs: seq<Lines>)
    requires AreGroups(gs)
    ensures ScanOf(gs).Scanned? <==> AllNamed(gs) && Balanced(Bare(Located(gs)))
    ensures ScanOf(gs).Scanned? ==>
              && IsForest(ScanOf(gs).tree) && Flatten(ScanOf(gs).tree) == Structural(Located(gs))
              && ScanOf(gs).defines == Defines(Located(gs)) && ScanOf(gs).licenseEnds == LicenseEnds(gs)
  {
    hide Located, ParseAll, Bare, AllNamed, NeverNegative, Structural, Flatten, IsForest, LicenseEnds, Defines, ProgressAfter;
    GoingIff(gs);
    ScanFailsIffUnbalanced(Located(gs));
  }

  // Definitions

  function DefineOf(name: string): Token -> bool {
    t => IsDefine(name, t)
  }

  lemma {:induction false} DefinesAre(ds: seq<Directive>, name: string)
    ensures name in Defines(ds) <==> Filter(DefineOf(name), ds) != []
    ensures name in Defines(ds) ==> Defines(ds)[name] == Filter(DefineOf(name), ds)
  {
    if ds != [] {
      DefinesAre(ds[..|ds| - 1], name);
    }
  }

  // Tokens without places

  function Founds(ts: seq<Token>): seq<Parsed> {
    seq(|ts|, i requires 0 <= i < |ts| => Found(ts[i]))
  }

  lemma {:induction false} TokensOf(gs: seq<Lines>)
    requires AreGroups(gs)
    ensures AllNamed(gs) ==> Directives(gs) == Founds(Bare(Located(gs)))
    ensures (exists ts :: Directives(gs) == Founds(ts)) ==> AllNamed(gs)
    decreases |gs|
  {
    if gs != [] {
      var front, g := FrontAndLast(gs);
      TokensOf(front);
      TokensOfLast(front, g);
    }
  }

  lemma {:induction false} TokensOfLast(front: seq<Lines>, g: Lines)
    requires AreGroups(front) && IsGroup(g) && AreGroups(front + [g])
    requires AllNamed(front) ==> Directives(front) == Founds(Bare(Located(front)))
    requires (exists ts :: Directives(front) == Founds(ts)) ==> AllNamed(front)
    ensures AllNamed(front + [g]) ==> Directives(front + [g]) == Founds(Bare(Located(front + [g])))
    ensures (exists ts :: Directives(front + [g]) == Founds(ts)) ==> AllNamed(front + [g])
  {
    hide Directives, Located, Parse, Text, IsGroup;
    DirectivesStep(front, g);
    LocatedAppend(front, g);
    var gs := front + [g];
    assert gs[|front|] == g;
    if AllNamed(gs) {
      assert forall k | 0 <= k < |front| :: front[k] == gs[k];
      assert AllNamed(front);
    }
    if ts :| Directives(gs) == Founds(ts) {
      var n := |Directives(front)|;
      assert |Founds(ts)| == |ts|;
      forall k | 0 <= k < n
        ensures Directives(front)[k] == Founds(ts[..n])[k]
      {
        assert Directives(gs)[k] == Founds(ts)[k];
      }
      assert Directives(front) == Founds(ts[..n]);
      assert |Directives(gs)| > n ==> Directives(gs)[n] == Founds(ts)[n];
    }
  }

  lemma FoundsAreEqual(a: seq<Token>, b: seq<Token>)
    requires Founds(a) == Founds(b)
    ensures a == b
  {
    assert |Founds(a)| == |a| && |Founds(b)| == |b|;
    forall i | 0 <= i < |a|
      ensures a[i] == b[i]
    {
      assert Founds(a)[i] == Founds(b)[i];
    }
  }

  // Nothing to do

  ghost predicate TokenPair(ts: seq<Token>, i: nat, j: nat) {
    i < j < |ts| && IsOpener(ts[i]) && IsCloser(ts[j]) && Balanced(ts[i + 1..j])
  }

  /** The conditional opened at i and closed at j is the guard, no other
      conditional outside it has its name, it is defined, and what follows its
      #endif is in order. */
  ghost predicate IsCorrect(ts: seq<Token>, guard: string, o: Options, i: nat, j: nat) {
    && Balanced(ts) && TokenPair(ts, i, j)
    && IsGuard(guard, ts[i])
    && Count(guard, ts[..i]) == 0 && Count(guard, ts[j + 1..]) == 0
    && (exists k :: 0 <= k < |ts| && IsDefine(guard, ts[k]))
    && (forall k | 0 <= k < |ts| :: !IsOnce(ts[k]))
    && !ReplacesEndif(guard, o, ts[j].args)
  }

  lemma {:induction false} NoneKept(keep: Token -> bool, ds: seq<Directive>)
    requires forall k | 0 <= k < |ds| :: !keep(ds[k].token)
    ensures Filter(keep, ds) == []
  {
    if ds != [] {
      NoneKept(keep, ds[..|ds| - 1]);
    }
  }

  lemma {:induction false} SomeKept(keep: Token -> bool, ds: seq<Directive>, k: nat)
    requires k < |ds| && keep(ds[k].token)
    ensures Filter(keep, ds) != []
    decreases |ds|
  {
    if k < |ds| - 1 {
      SomeKept(keep, ds[..|ds| - 1], k);
    }
  }

  lemma StructuralKeeps()
    ensures KeepsConditionals(IsStructural) && KeepsConditionals(NotOnce)
  {
  }

  lemma BareSlices(ds: seq<Directive>, i: nat, j: nat)
    requires i <= j <= |ds|
    ensures Bare(ds[i..j]) == Bare(ds)[i..j] && Bare(ds[..i]) == Bare(ds)[..i] && Bare(ds[j..]) == Bare(ds)[j..]
  {
  }

  lemma PairIsTokenPair(ds: seq<Directive>, i: nat, j: nat)
    requires i < j < |ds|
    ensures Pair(ds, i, j) <==> TokenPair(Bare(ds), i, j)
  {
    hide Balanced;
    BareSlices(ds, i + 1, j);
  }

  lemma {:induction false} NothingBefore(guard: string, ts: seq<Token>, i: nat, k: nat)
    requires k < i <= |ts| && Count(guard, ts[..i]) == 0
    ensures !IsGuard(guard, ts[k])
    decreases i
  {
    assert ts[..i][..i - 1] == ts[..i - 1];
    if k < i - 1 {
      NothingBefore(guard, ts, i - 1, k);
    }
  }

  /** The first guard found is the first #ifndef of that name with its #endif,
      and there are others exactly if the name appears after that #endif. */
  lemma {:induction false} FirstIsPair(ds: seq<Directive>, tree: seq<Block>, guard: string, i: nat, j: nat)
    requires IsForest(tree) && Flatten(tree) == Structural(ds)
    requires Pair(ds, i, j) && IsGuard(guard, ds[i].token) && Count(guard, Bare(ds[..i])) == 0
    ensures Guards(guard, tree) != []
    ensures Guards(guard, tree)[0].open == ds[i] && Guards(guard, tree)[0].close == ds[j]
    ensures |Guards(guard, tree)| > 1 <==> Count(guard, Bare(ds[j + 1..])) > 0
  {
    hide Flatten, FlattenBlock, Count, Guards, Filter, Bare, Balanced, IsBlock, IsForest;
    StructuralKeeps();
    SomeGuard(guard, ds, i);
    FilterCount(guard, IsStructural, ds);
    GuardsAreCounted(guard, tree);
    var p := FirstGuard(guard, tree);
    var b := Guards(guard, tree)[0];
    var k, l := BlockIsPair(b, ds, p);
    FilterCount(guard, IsStructural, ds[..k]);
    NoGuardBefore(guard, ds, i, k);
    NoGuardBefore(guard, ds, k, i);
    PairIsUnique(ds, i, j, l);
    BlockIsNotEmpty(b);
    StructuralTail(ds, l, p + |FlattenBlock(b)|);
    FilterCount(guard, IsStructural, ds[l + 1..]);
  }

  lemma BlockIsNotEmpty(b: Block)
    ensures FlattenBlock(b) != []
  {
  }

  lemma {:induction false} SomeGuard(guard: string, ds: seq<Directive>, i: nat)
    requires i < |ds| && IsGuard(guard, ds[i].token)
    ensures Count(guard, Bare(ds)) > 0
  {
    if Count(guard, Bare(ds)) == 0 {
      assert Bare(ds)[..|ds|] == Bare(ds);
      NothingBefore(guard, Bare(ds), |ds|, i);
    }
  }

  lemma {:induction false} NoGuardBefore(guard: string, ds: seq<Directive>, i: nat, k: nat)
    requires i < |ds| && k < |ds| && IsGuard(guard, ds[k].token) && Count(guard, Bare(ds[..i])) == 0
    ensures i <= k
  {
    if k < i {
      BareSlices(ds, i, i);
      NothingBefore(guard, Bare(ds), i, k);
    }
  }

  lemma {:induction false} StructuralTail(ds: seq<Directive>, l: nat, q: nat)
    requires l < |ds| && IsStructural(ds[l].token) && 0 < q <= |Structural(ds)| && Structural(ds[..l]) == Structural(ds)[..q - 1]
    ensures Structural(ds)[q..] == Structural(ds[l + 1..])
  {
    hide Filter, IsStructural;
    FilterSplit(IsStructural, ds, l);
    assert ds[l..] == [ds[l]] + ds[l + 1..];
    FilterOfSum(IsStructural, [ds[l]], ds[l + 1..]);
    FilterOfOne(IsStructural, ds[l]);
  }

  lemma {:induction false} NoOnceWithin(ds: seq<Directive>, b: Block, p: nat)
    requires IsBlock(b) && b.open.token.kind == "ifndef" && StandsAt(b, Structural(ds), p) && Onces(ds) == []
    ensures Onces(Flatten(b.children)) == []
  {
    OncesAreStructural(ds);
    var fs, n := Structural(ds), |FlattenBlock(b)|;
    hide Structural;
    assert fs == fs[..p] + fs[p..p + n] + fs[p + n..];
    FilterOfSum(IsOnce, fs[..p] + fs[p..p + n], fs[p + n..]);
    FilterOfSum(IsOnce, fs[..p], fs[p..p + n]);
    FilterOfSum(IsOnce, [b.open] + Flatten(b.children), [b.close]);
    FilterOfSum(IsOnce, [b.open], Flatten(b.children));
  }

  lemma {:induction false} NoPragmas(ds: seq<Directive>, tree: seq<Block>, guard: string)
    requires IsForest(tree) && Flatten(tree) == Structural(ds) && Onces(ds) == []
    ensures Pragmas(guard, tree) == []
  {
    hide Flatten, Structural, Guards, Onces;
    forall k | 0 <= k < |Guards(guard, tree)|
      ensures Onces(Flatten(Guards(guard, tree)[k].children)) == []
    {
      GuardStands(guard, tree, k);
      var p: nat :| StandsAt(Guards(guard, tree)[k], Flatten(tree), p);
      NoOnceWithin(ds, Guards(guard, tree)[k], p);
    }
    PragmasAre(guard, tree);
    OncesAreStructural(ds);
  }

  /** A header with a correct guard is reported as such and left alone. */
  lemma {:induction false} CorrectIsSettled(lines: Lines, ts: seq<Token>, guard: string, o: Options, i: nat, j: nat)
    requires AreGroups(Tile(lines).groups) && Directives(Tile(lines).groups) == Founds(ts)
    requires IsCorrect(ts, guard, o, i, j)
    ensures Fix(lines, guard, o) == Done(Ok, [FoundCorrectGuard], if o.inplace then Some(lines) else None)
  {
    hide Tile, Located, Directives, Bare, Founds, Balanced, Count, Guards, Pragmas, Flatten, Filter, RemoveAll, Defines, ReplacesEndif,
      IsForest, IsOnce, AllNamed, ScanOf;
    var gs := Tile(lines).groups;
    var ds := Located(gs);
    TokensOf(gs);
    FoundsAreEqual(ts, Bare(ds));
    ScanSucceedsIff(gs);
    var tree := ScanOf(gs).tree;
    LocatedIsCorrect(ds, guard, o, i, j);
    FirstIsPair(ds, tree, guard, i, j);
    NoPragmas(ds, tree, guard);
    DefinesAre(ds, guard);
    NothingRemoved(lines);
    RepairLeavesAlone(lines, guard, o, Guards(guard, tree)[0], Defines(ds));
  }

  lemma NothingRemoved(lines: Lines)
    ensures RemoveAll(lines, []) == lines
  {
  }

  lemma {:induction false} LocatedIsCorrect(ds: seq<Directive>, guard: string, o: Options, i: nat, j: nat)
    requires IsCorrect(Bare(ds), guard, o, i, j)
    ensures Pair(ds, i, j) && IsGuard(guard, ds[i].token)
    ensures Count(guard, Bare(ds[..i])) == 0 && Count(guard, Bare(ds[j + 1..])) == 0
    ensures Onces(ds) == [] && Filter(DefineOf(guard), ds) != []
    ensures !ReplacesEndif(guard, o, ds[j].token.args)
  {
    hide Balanced, Count, Filter, IsDefine, ReplacesEndif, IsOnce, IsGuard, IsOpener, IsCloser;
    PairIsTokenPair(ds, i, j);
    BareSlices(ds, i, j + 1);
    assert forall k | 0 <= k < |ds| :: Bare(ds)[k] == ds[k].token;
    NoneKept(IsOnce, ds);
    var k :| 0 <= k < |ds| && IsDefine(guard, Bare(ds)[k]);
    SomeKept(DefineOf(guard), ds, k);
  }

  lemma {:induction false} RepairLeavesAlone(lines: Lines, guard: string, o: Options, b: Block, defines: map<string, seq<Directive>>)
    requires IsGuard(guard, b.open.token) && guard in defines && !ReplacesEndif(guard, o, b.close.token.args)
    ensures b.open.token.args.Some?
    ensures RepairGuard(lines, guard, o, b, defines, false) ==
            Done(Ok, [FoundCorrectGuard], if o.inplace then Some(lines) else None)
  {
  }
}
