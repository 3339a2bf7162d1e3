/** When what the fixer writes has a correct guard. */
module GuardIdempotence {
  import opened Common
  import opened HeaderText
  import opened Splicing
  import opened Conditionals
  import opened GuardSearch
  import opened DirectiveScan
  import opened PragmaRemoval
  import opened HeaderGuard
  import opened GuardSettled
  import opened GuardEdits

  // Tokens

  /** Balanced directives without #pragma once in which the conditional from i to
      j is the only one that may bear the guard's name on the outside. */
  ghost predicate IsBase(ts: seq<Token>, guard: string, i: nat, j: nat) {
    && Balanced(ts) && TokenPair(ts, i, j)
    && Count(guard, ts[..i]) == 0 && Count(guard, ts[j + 1..]) == 0
    && (forall k | 0 <= k < |ts| :: !IsOnce(ts[k]))
  }

  /** Directives of the same kinds; only the i-th, definitions and #endifs differ. */
  ghost predicate Retouched(a: seq<Token>, b: seq<Token>, i: nat) {
    && |a| == |b|
    && (forall k | 0 <= k < |a| :: b[k].kind == a[k].kind)
    && (forall k | 0 <= k < |a| && k != i && a[k].kind != "define" && a[k].kind != "endif" :: b[k] == a[k])
  }

  lemma {:induction false} SameDepth(a: seq<Token>, b: seq<Token>)
    requires |a| == |b| && forall k | 0 <= k < |a| :: b[k].kind == a[k].kind
    ensures Depth(a) == Depth(b)
  {
    if a != [] {
      SameDepth(a[..|a| - 1], b[..|b| - 1]);
    }
  }

  lemma {:induction false} SameBalance(a: seq<Token>, b: seq<Token>)
    requires |a| == |b| && forall k | 0 <= k < |a| :: b[k].kind == a[k].kind
    requires Balanced(a)
    ensures Balanced(b)
  {
    hide Depth;
    SameDepth(a, b);
    forall k | 0 <= k <= |b|
      ensures Depth(b[..k]) >= 0
    {
      SameDepth(a[..k], b[..k]);
    }
  }

  lemma {:induction false} NoneCounted(guard: string, ts: seq<Token>)
    ensures Count(guard, ts) == 0 <==> forall k | 0 <= k < |ts| :: !IsGuard(guard, ts[k])
  {
    if ts != [] {
      var n := |ts| - 1;
      NoneCounted(guard, ts[..n]);
      assert forall k | 0 <= k < n :: ts[..n][k] == ts[k];
    }
  }

  lemma {:induction false} RetouchedIsCorrect(a: seq<Token>, b: seq<Token>, guard: string, o: Options, i: nat, j: nat)
    requires IsBase(a, guard, i, j) && Retouched(a, b, i)
    requires IsGuard(guard, b[i]) && (exists k :: 0 <= k < |b| && IsDefine(guard, b[k]))
    requires !ReplacesEndif(guard, o, b[j].args)
    ensures IsCorrect(b, guard, o, i, j)
  {
    hide Balanced, Count, ReplacesEndif, IsDefine;
    SameBalance(a, b);
    SameBalance(a[i + 1..j], b[i + 1..j]);
    NoneCounted(guard, a[..i]);
    NoneCounted(guard, b[..i]);
    NoneCounted(guard, a[j + 1..]);
    NoneCounted(guard, b[j + 1..]);
    var head, tail := b[..i], b[j + 1..];
    forall k | 0 <= k < |head|
      ensures !IsGuard(guard, head[k])
    {
      assert !IsGuard(guard, a[..i][k]);
    }
    forall k | 0 <= k < |tail|
      ensures !IsGuard(guard, tail[k])
    {
      assert !IsGuard(guard, a[j + 1..][k]);
    }
  }

  /** A definition put right after the opener changes none of this. */
  lemma {:induction false} BaseWithDefine(a: seq<Token>, t: Token, guard: string, i: nat, j: nat)
    requires IsBase(a, guard, i, j) && t.kind == "define"
    ensures IsBase(a[..i + 1] + [t] + a[i + 1..], guard, i, j + 1)
  {
    hide Balanced, Count;
    var b := a[..i + 1] + [t] + a[i + 1..];
    assert b[..i] == a[..i] && b[j + 2..] == a[j + 1..];
    assert b[i + 1..j + 1] == [t] + a[i + 1..j];
    FlatIsBalanced(t);
    BalancedSum([t], a[i + 1..j]);
    BalancedInsert(a, i + 1, t);
  }

  lemma FlatIsBalanced(t: Token)
    requires !IsOpener(t) && !IsCloser(t)
    ensures Balanced([t])
  {
    DepthOfOne(t);
    assert forall k | 0 <= k <= 1 :: [t][..k] == [] || [t][..k] == [t];
  }

  lemma {:induction false} BalancedInsert(a: seq<Token>, m: nat, t: Token)
    requires Balanced(a) && m <= |a| && !IsOpener(t) && !IsCloser(t)
    ensures Balanced(a[..m] + [t] + a[m..])
  {
    hide Depth, IsOpener, IsCloser;
    var b := a[..m] + [t] + a[m..];
    DepthOfOne(t);
    DepthOfSum(a[..m], [t]);
    DepthOfSum(a[..m] + [t], a[m..]);
    DepthOfSum(a[..m], a[m..]);
    assert a[..m] + a[m..] == a;
    forall k | 0 <= k <= |b|
      ensures Depth(b[..k]) >= 0
    {
      if k <= m {
        assert b[..k] == a[..k];
      } else {
        assert b[..k] == (a[..m] + [t]) + a[m..][..k - m - 1];
        assert a[..k - 1] == a[..m] + a[m..][..k - m - 1];
        DepthOfSum(a[..m] + [t], a[m..][..k - m - 1]);
        DepthOfSum(a[..m], a[m..][..k - m - 1]);
      }
    }
  }

  // The first run

  /** The block the fixer takes for the guard, if any. */
  function RootOf(guard: string, tree: seq<Block>): Option<Block> {
    if |Guards(guard, tree)| == 1 then Some(Guards(guard, tree)[0]) else Alternate(tree)
  }

  lemma {:induction false} KeptAreNamed(gs: seq<Lines>)
    requires AreGroups(gs) && AllNamed(gs)
    ensures AllNamed(Kept(gs))
  {
    hide Parse, Text, IsGroup;
    forall k | 0 <= k < |Kept(gs)|
      ensures !Parse(Text(Kept(gs)[k])).Nameless?
    {
      KeptAreGroups(gs, Kept(gs)[k]);
    }
  }

  /** What is left once the #pragma once lines are gone. */
  lemma {:induction false} RestIsPlain(lines: Lines, guard: string)
    requires AreGroups(Tile(lines).groups) && ScanOf(Tile(lines).groups).Scanned?
    requires NoOnceInside(Guards(guard, ScanOf(Tile(lines).groups).tree))
    ensures RemoveAll(lines, Pragmas(guard, ScanOf(Tile(lines).groups).tree)) == Remaining(lines)
    ensures Plain(Kept(Tile(lines).groups))
    ensures Located(Kept(Tile(lines).groups)) == Filter(NotOnce, Located(Tile(lines).groups))
    ensures Balanced(Bare(Located(Kept(Tile(lines).groups))))
  {
    hide Tile, ScanOf, Located, Kept, Filter, Flatten, Guards, Pragmas, RemoveAll, Balanced, AllNamed, Remaining, NoOnceInside, IsForest,
      AsBlocks;
    var gs := Tile(lines).groups;
    ScanSucceedsIff(gs);
    PragmasAre(guard, ScanOf(gs).tree);
    OncesAreStructural(Located(gs));
    PragmasRemoved(lines, 0);
    RestIsLocated(gs);
    KeptAreNamed(gs);
    StructuralKeeps();
    FilterBalanced(NotOnce, Located(gs));
  }

  lemma {:induction false} FilterTail(keep: Token -> bool, ds: seq<Directive>, l: nat)
    requires l < |ds| && keep(ds[l].token)
    ensures |Filter(keep, ds[..l])| < |Filter(keep, ds)|
    ensures Filter(keep, ds)[|Filter(keep, ds[..l])| + 1..] == Filter(keep, ds[l + 1..])
  {
    hide Filter;
    FilterSplit(keep, ds, l);
    assert ds[l..] == [ds[l]] + ds[l + 1..];
    FilterOfSum(keep, [ds[l]], ds[l + 1..]);
    FilterOfOne(keep, ds[l]);
  }

  /** The root block's directives among those that remain. */
  ghost predicate IsRootPair(ps: seq<Directive>, guard: string, b: Block, i: nat, j: nat) {
    && Pair(ps, i, j) && ps[i] == b.open && ps[j] == b.close && b.open.token.kind == "ifndef"
    && Count(guard, Bare(ps[..i])) == 0 && Count(guard, Bare(ps[j + 1..])) == 0
  }

  lemma {:induction false} RootPairDrops(ds: seq<Directive>, guard: string, b: Block, k: nat, l: nat) returns (i: nat, j: nat)
    requires IsRootPair(ds, guard, b, k, l)
    ensures IsRootPair(Filter(NotOnce, ds), guard, b, i, j)
  {
    hide Filter, Count, Bare, Balanced;
    StructuralKeeps();
    i, j := PairDrops(NotOnce, ds, k, l);
    PrefixIsFiltered(NotOnce, ds, k);
    FilterCount(guard, NotOnce, ds[..k]);
    FilterTail(NotOnce, ds, l);
    FilterCount(guard, NotOnce, ds[l + 1..]);
  }

  lemma {:induction false} GuardIsRootPair(ds: seq<Directive>, tree: seq<Block>, guard: string) returns (k: nat, l: nat)
    requires IsForest(tree) && Flatten(tree) == Structural(ds) && |Guards(guard, tree)| == 1
    ensures IsRootPair(ds, guard, Guards(guard, tree)[0], k, l)
  {
    hide Filter, Count, Bare, Balanced, Flatten, FlattenBlock, Guards, IsForest, IsBlock;
    StructuralKeeps();
    var b := Guards(guard, tree)[0];
    var p := FirstGuard(guard, tree);
    k, l := BlockIsPair(b, ds, p);
    FilterCount(guard, IsStructural, ds[..k]);
    BlockIsNotEmpty(b);
    StructuralTail(ds, l, p + |FlattenBlock(b)|);
    FilterCount(guard, IsStructural, ds[l + 1..]);
  }

  lemma {:induction false} CountOfParts(guard: string, ds: seq<Directive>, i: nat, j: nat)
    requires i <= |ds| && j <= |ds| && Count(guard, Bare(ds)) == 0
    ensures Count(guard, Bare(ds[..i])) == 0 && Count(guard, Bare(ds[j..])) == 0
  {
    hide Count, Bare;
    assert ds[..i] + ds[i..] == ds && ds[..j] + ds[j..] == ds;
    BareOfSum(ds[..i], ds[i..]);
    CountOfSum(guard, Bare(ds[..i]), Bare(ds[i..]));
    BareOfSum(ds[..j], ds[j..]);
    CountOfSum(guard, Bare(ds[..j]), Bare(ds[j..]));
  }

  lemma {:induction false} AlternateIsRootPair(ds: seq<Directive>, tree: seq<Block>, guard: string) returns (k: nat, l: nat)
    requires IsForest(tree) && Flatten(tree) == Structural(ds) && Guards(guard, tree) == [] && Alternate(tree).Some?
    ensures IsRootPair(ds, guard, Alternate(tree).value, k, l)
    ensures Count(guard, Bare(ds)) == 0
  {
    hide Filter, Count, Bare, Balanced, Flatten, Guards, IsForest, IsBlock, Alternate;
    StructuralKeeps();
    AlternateStands(tree);
    var b := Alternate(tree).value;
    var p: nat :| StandsAt(b, Structural(ds), p);
    k, l := BlockIsPair(b, ds, p);
    GuardsAreCounted(guard, tree);
    FilterCount(guard, IsStructural, ds);
    CountOfParts(guard, ds, k, l + 1);
  }

  lemma {:induction false} PairIsBase(ps: seq<Directive>, ds: seq<Directive>, guard: string, b: Block, i: nat, j: nat)
    requires ps == Filter(NotOnce, ds) && Balanced(Bare(ps)) && IsRootPair(ps, guard, b, i, j)
    ensures IsBase(Bare(ps), guard, i, j)
  {
    hide Balanced, Count;
    PairIsTokenPair(ps, i, j);
    BareSlices(ps, i, j + 1);
    forall k | 0 <= k < |ps|
      ensures !IsOnce(Bare(ps)[k])
    {
      var m := FilterLift(NotOnce, ds, k);
    }
  }

  /** The root found by a run that goes on to repair it. */
  lemma {:induction false} RootIsBase(lines: Lines, guard: string, b: Block) returns (i: nat, j: nat)
    requires AreGroups(Tile(lines).groups) && ScanOf(Tile(lines).groups).Scanned?
    requires var tree := ScanOf(Tile(lines).groups).tree;
             |Guards(guard, tree)| <= 1 && NoOnceInside(Guards(guard, tree)) && RootOf(guard, tree) == Some(b)
    ensures var ps := Located(Kept(Tile(lines).groups));
            && IsBase(Bare(ps), guard, i, j) && IsRootPair(ps, guard, b, i, j)
  {
    hide Tile, ScanOf, Located, Kept, Filter, Flatten, Guards, Balanced, Bare, IsRootPair, IsBase, Alternate, AllNamed, NoOnceInside,
      IsForest;
    var gs := Tile(lines).groups;
    ScanSucceedsIff(gs);
    RestIsPlain(lines, guard);
    var tree, ds := ScanOf(gs).tree, Located(gs);
    var k, l;
    if |Guards(guard, tree)| == 1 {
      k, l := GuardIsRootPair(ds, tree, guard);
    } else {
      k, l := AlternateIsRootPair(ds, tree, guard);
    }
    i, j := RootPairDrops(ds, guard, b, k, l);
    PairIsBase(Located(Kept(gs)), ds, guard, b, i, j);
  }

  // Repairing a guard

  lemma {:induction false} FilterUpdate(keep: Token -> bool, ds: seq<Directive>, i: nat, d: Directive)
    requires i < |ds| && !keep(ds[i].token) && !keep(d.token)
    ensures Filter(keep, ds[i := d]) == Filter(keep, ds)
  {
    hide Filter;
    var es := ds[i := d];
    assert ds == ds[..i] + [ds[i]] + ds[i + 1..] && es == ds[..i] + [d] + ds[i + 1..];
    FilterOfSum(keep, ds[..i] + [ds[i]], ds[i + 1..]);
    FilterOfSum(keep, ds[..i], [ds[i]]);
    FilterOfSum(keep, ds[..i] + [d], ds[i + 1..]);
    FilterOfSum(keep, ds[..i], [d]);
    FilterOfOne(keep, ds[i]);
    FilterOfOne(keep, d);
  }

  lemma GuardLines(guard: string)
    requires IsName(guard)
    ensures IsDirective(Opening(guard), Token("ifndef", Some(guard)))
    ensures IsDirective(Defining(guard), Token("define", Some(guard)))
  {
    hide Parse;
    OpenReadsBack(guard);
    DefineReadsBack(guard);
    SolidLine("#ifndef ", guard);
    SolidLine("#define ", guard);
  }

  lemma CloseLine(guard: string, comment: bool)
    requires IsName(guard)
    ensures IsDirective(Closing(guard, comment), Token("endif", if comment then Some("// " + guard) else None))
  {
    hide Parse;
    CloseReadsBack(guard);
    SolidLine("#endif // ", guard);
    SolidLine("#endi", "f");
  }

  lemma SolidLine(a: string, guard: string)
    requires IsName(guard)
    ensures !Continues(a + guard) && a + guard != "" && StripRight(a + guard) == a + guard
  {
    var line := a + guard;
    assert line[|line| - 1] == guard[|guard| - 1];
  }

  /** The directives after the guard was given its name. */
  ghost predicate IsRenamed(ps: seq<Directive>, qs: seq<Directive>, guard: string, name: string, i: nat, j: nat, close: bool) {
    && |qs| == |ps| && i < j < |ps|
    && qs[i].token == Token("ifndef", Some(guard))
    && qs[j].token == (if close then Token("endif", Some("// " + guard)) else ps[j].token)
    && (forall k | 0 <= k < |ps| && k != i && k != j ::
          qs[k].token == if IsDefine(name, ps[k].token) then Token("define", Some(guard)) else ps[k].token)
  }

  lemma {:induction false} ReplaceEdits(ks: seq<Lines>, guard: string, b: Block, name: string, i: nat, j: nat, close: bool)
    returns (es: seq<Lines>)
    requires Plain(ks) && IsName(guard) && EndsCleanly(Flat(ks))
    requires i < j < |Located(ks)| && Located(ks)[i] == b.open && b.open.start == b.open.end
    requires b.open.token.kind == "ifndef" && Located(ks)[j].token.kind == "endif"
    requires SingleLines(Filter(DefineOf(name), Located(ks)))
    requires close ==> Located(ks)[j] == b.close && b.close.start == b.close.end
    ensures Plain(es) && EndsCleanly(Flat(es))
    ensures Flat(es) == GuardReplaced(Flat(ks), guard, b, Filter(DefineOf(name), Located(ks)), close)
    ensures IsRenamed(Located(ks), Located(es), guard, name, i, j, close)
  {
    hide Located, Flat, Plain, IsDirective, Filter, Replaced, SliceSet, EndsCleanly, Opening, Defining, Closing, SingleLines;
    GuardLines(guard);
    CloseLine(guard, true);
    var ps := Located(ks);
    var open, define := Token("ifndef", Some(guard)), Token("define", Some(guard));
    var fs := EditOne(ks, i, Opening(guard), open);
    SetOne(Flat(ks), b.open.start, Opening(guard));
    FilterUpdate(DefineOf(name), ps, i, Located(fs)[i]);
    var hs := EditDefines(fs, |Located(fs)|, name, Defining(guard), define);
    TakeAll(Located(fs));
    if close {
      es := EditOne(hs, j, Closing(guard, true), Token("endif", Some("// " + guard)));
      SetOne(Flat(hs), b.close.start, Closing(guard, true));
    } else {
      es := hs;
    }
  }

  lemma TakeAll(ds: seq<Directive>)
    ensures ds[..|ds|] == ds && ds[|ds|..] == []
  {
  }

  lemma {:induction false} RenamedIsRetouched(ps: seq<Directive>, qs: seq<Directive>, guard: string, name: string, i: nat, j: nat, close: bool)
    requires IsRenamed(ps, qs, guard, name, i, j, close) && ps[i].token.kind == "ifndef" && ps[j].token.kind == "endif"
    ensures Retouched(Bare(ps), Bare(qs), i)
  {
  }

  /** After the guard was renamed, or its #endif rewritten, it is correct. */
  lemma {:induction false} RenamedIsCorrect(ps: seq<Directive>, qs: seq<Directive>, guard: string, name: string, o: Options, i: nat, j: nat,
                                            close: bool)
    requires IsName(guard) && IsBase(Bare(ps), guard, i, j) && ps[i].token.kind == "ifndef"
    requires IsRenamed(ps, qs, guard, name, i, j, close)
    requires Filter(DefineOf(name), ps) != []
    requires close == ReplacesEndif(guard, o, ps[j].token.args)
    ensures IsCorrect(Bare(qs), guard, o, i, j)
  {
    hide Balanced, Count, IsDefine, Filter, CommentGuard;
    RenamedIsRetouched(ps, qs, guard, name, i, j, close);
    var k := FilterLift(DefineOf(name), ps, 0);
    DefineReadsBack(guard);
    NameIsDefined(guard);
    DefineIsNot(ps[k].token, name);
    assert Bare(qs)[k] == Token("define", Some(guard));
    CommentReadsBack(guard);
    RetouchedIsCorrect(Bare(ps), Bare(qs), guard, o, i, j);
  }

  lemma NameIsDefined(guard: string)
    requires Word(guard) == guard
    ensures IsDefine(guard, Token("define", Some(guard))) && IsGuard(guard, Token("ifndef", Some(guard)))
  {
  }

  lemma DefineIsNot(t: Token, name: string)
    requires IsDefine(name, t)
    ensures t.kind == "define"
  {
  }

  // What a run must find for its result to last

  /** A line number at which no group is open and no conditional is. */
  ghost predicate IsCleanPlace(lines: Lines, at: nat) {
    at < |lines| ==>
      && Tile(lines[..at]).pending == []
      && AreGroups(Tile(lines[..at]).groups) && Depth(Bare(Located(Tile(lines[..at]).groups))) == 0
  }

  ghost predicate IsRepairable(guard: string, o: Options, b: Block, ds: seq<Directive>) {
    b.open.token.args.Some? ==>
      var name, close := Word(b.open.token.args.value), ReplacesEndif(guard, o, b.close.token.args);
      && (Filter(DefineOf(name), ds) == [] ==> IsName(name))
      && (name != guard || close ==> b.open.start == b.open.end && SingleLines(Filter(DefineOf(name), ds)))
      && (close ==> b.close.start == b.close.end)
  }

  /** The last line does not end in a backslash; there is no #pragma once inside
      a guard that already has its name; a guard to be added goes between
      conditionals; the directives of a guard to be repaired stand on one line
      each, and the name of one that is not defined does not end in a backslash. */
  ghost predicate IsRegular(lines: Lines, guard: string, o: Options) {
    AreGroups(Tile(lines).groups) && EndsCleanly(Remaining(lines)) && (
      var scan := ScanOf(Tile(lines).groups);
      scan.Scanned? ==>
        && NoOnceInside(Guards(guard, scan.tree))
        && match RootOf(guard, scan.tree)
           case None => IsCleanPlace(Remaining(lines), scan.licenseEnds)
           case Some(b) => IsRepairable(guard, o, b, Located(Tile(lines).groups)))
  }

  /** A definition has to be put in and the #endif to be rewritten. */
  predicate LosesALine(guard: string, o: Options, b: Block, ds: seq<Directive>) {
    && b.open.token.args.Some? && Filter(DefineOf(Word(b.open.token.args.value)), ds) == []
    && ReplacesEndif(guard, o, b.close.token.args)
  }

  /** No editor trailer follows a guard to be added, and the #endif of a guard to
      be defined stays as it is. */
  predicate Settles(lines: Lines, guard: string, o: Options)
    requires AreGroups(Tile(lines).groups)
  {
    var scan := ScanOf(Tile(lines).groups);
    scan.Scanned? ==>
      match RootOf(guard, scan.tree)
      case None => !HasVimTrailer(Remaining(lines))
      case Some(b) => !LosesALine(guard, o, b, Located(Tile(lines).groups))
  }

  /** A file that is correct once trimmed is left alone from then on. */
  ghost predicate Lasts(out: Lines, guard: string, o: Options) {
    forall p: Options :: p.closingComment == o.closingComment ==>
                           Fix(Trimmed(out), guard, p) ==
                           Done(Ok, [FoundCorrectGuard], if p.inplace then Some(Trimmed(out)) else None)
  }

  lemma {:induction false} CorrectLasts(out: Lines, ts: seq<Token>, guard: string, o: Options, i: nat, j: nat)
    requires EndsCleanly(out) && AreGroups(Tile(out).groups) && Directives(Tile(out).groups) == Founds(ts)
    requires IsCorrect(ts, guard, o, i, j)
    ensures Lasts(out, guard, o)
  {
    hide Tile, Directives, Trimmed, IsCorrect, Fix, EndsCleanly, Founds;
    TrimmingKeepsDirectives(out);
    forall p: Options | p.closingComment == o.closingComment
      ensures Fix(Trimmed(out), guard, p) == Done(Ok, [FoundCorrectGuard], if p.inplace then Some(Trimmed(out)) else None)
    {
      SameComment(ts, guard, o, p, i, j);
      CorrectIsSettled(Trimmed(out), ts, guard, p, i, j);
    }
  }

  lemma SameComment(ts: seq<Token>, guard: string, o: Options, p: Options, i: nat, j: nat)
    requires IsCorrect(ts, guard, o, i, j) && p.closingComment == o.closingComment
    ensures IsCorrect(ts, guard, p, i, j)
  {
    hide Balanced, Count, IsOnce;
  }

  lemma {:induction false} PlainLasts(es: seq<Lines>, guard: string, o: Options, i: nat, j: nat)
    requires Plain(es) && EndsCleanly(Flat(es)) && IsCorrect(Bare(Located(es)), guard, o, i, j)
    ensures Lasts(Flat(es), guard, o)
  {
    hide Tile, Flat, Located, Directives, IsCorrect, EndsCleanly, Founds, Lasts, Bare, Kept, AllNamed;
    TileOfGroups(es);
    TokensOf(es);
    CorrectLasts(Flat(es), Bare(Located(es)), guard, o, i, j);
  }

  // A guard that is kept or repaired

  lemma {:induction false} DefinesRemain(ds: seq<Directive>, name: string)
    ensures Filter(DefineOf(name), Filter(NotOnce, ds)) == Filter(DefineOf(name), ds)
  {
    if ds != [] {
      var n := |ds| - 1;
      DefinesRemain(ds[..n], name);
      FilterOfOne(DefineOf(name), ds[n]);
      if NotOnce(ds[n].token) {
        FilterOfSum(DefineOf(name), Filter(NotOnce, ds[..n]), [ds[n]]);
      } else {
        assert Filter(NotOnce, ds) == Filter(NotOnce, ds[..n]);
      }
    }
  }

  /** What a repair in place writes. */
  function Repaired(rest: Lines, guard: string, o: Options, b: Block, name: string, ds: seq<Directive>): Lines {
    var at := b.open.end + 1;
    var missing, close := ds == [], ReplacesEndif(guard, o, b.close.token.args);
    var lines := if missing then SliceSet(rest, at, at, [Defining(name)]) else rest;
    if name != guard || close then
      GuardReplaced(lines, guard, b, if missing then [Directive(Token("define", Some(name)), at, at)] else ds, close)
    else lines
  }

  lemma {:induction false} RepairWrites(rest: Lines, guard: string, o: Options, b: Block, ds: seq<Directive>, pragmas: bool)
    requires o.inplace && b.open.token.kind == "ifndef" && b.open.token.args.Some?
    ensures var name := Word(b.open.token.args.value);
            var out := RepairGuard(rest, guard, o, b, Defines(ds), pragmas);
            out.Done? && out.written == Some(Repaired(rest, guard, o, b, name, Filter(DefineOf(name), ds)))
  {
    hide Filter, Defines, GuardReplaced, SliceSet, WrongComment, Defining, Word;
    DefinesAre(ds, Word(b.open.token.args.value));
  }

  lemma {:induction false} RepairLasts(ks: seq<Lines>, guard: string, o: Options, b: Block, name: string, i: nat, j: nat)
    requires Plain(ks) && IsName(guard) && EndsCleanly(Flat(ks))
    requires IsBase(Bare(Located(ks)), guard, i, j)
    requires Located(ks)[i] == b.open && Located(ks)[j] == b.close && b.open.token.kind == "ifndef"
    requires b.open.token.args.Some? && name == Word(b.open.token.args.value)
    requires IsRepairable(guard, o, b, Located(ks)) && !LosesALine(guard, o, b, Located(ks))
    ensures Lasts(Repaired(Flat(ks), guard, o, b, name, Filter(DefineOf(name), Located(ks))), guard, o)
  {
    hide Tile, Flat, Located, Filter, Bare, EndsCleanly, Plain, IsBase, Lasts, GuardReplaced, SliceSet, Defining, SingleLines, ReplacesEndif,
      IsCorrect, IsRenamed;
    var ps, close := Located(ks), ReplacesEndif(guard, o, b.close.token.args);
    var ds := Filter(DefineOf(name), ps);
    BaseBounds(ps, guard, i, j);
    if ds != [] {
      if name != guard || close {
        var es := ReplaceEdits(ks, guard, b, name, i, j, close);
        RenamedIsCorrect(ps, Located(es), guard, name, o, i, j, close);
        PlainLasts(es, guard, o, i, j);
      } else {
        KeptIsCorrect(ps, guard, o, i, j);
        PlainLasts(ks, guard, o, i, j);
      }
    } else {
      RepairWithDefine(ks, guard, o, b, name, i, j);
    }
  }

  lemma {:induction false} BaseBounds(ps: seq<Directive>, guard: string, i: nat, j: nat)
    requires IsBase(Bare(ps), guard, i, j)
    ensures i < j < |ps| && ps[j].token.kind == "endif"
  {
  }

  lemma {:induction false} KeptIsCorrect(ps: seq<Directive>, guard: string, o: Options, i: nat, j: nat)
    requires IsBase(Bare(ps), guard, i, j) && IsGuard(guard, ps[i].token) && Filter(DefineOf(guard), ps) != []
    requires !ReplacesEndif(guard, o, ps[j].token.args)
    ensures IsCorrect(Bare(ps), guard, o, i, j)
  {
    hide Balanced, Count, ReplacesEndif, IsDefine, Filter;
    var k := FilterLift(DefineOf(guard), ps, 0);
    assert IsDefine(guard, Bare(ps)[k]);
  }

  /** A guard that is not defined gets its definition first. */
  lemma {:induction false} RepairWithDefine(ks: seq<Lines>, guard: string, o: Options, b: Block, name: string, i: nat, j: nat)
    requires Plain(ks) && IsName(guard) && EndsCleanly(Flat(ks)) && IsName(name)
    requires IsBase(Bare(Located(ks)), guard, i, j) && i < j < |Located(ks)|
    requires Located(ks)[i] == b.open && Located(ks)[j] == b.close && b.open.token.kind == "ifndef"
    requires b.open.token.args.Some? && name == Word(b.open.token.args.value)
    requires IsRepairable(guard, o, b, Located(ks)) && !LosesALine(guard, o, b, Located(ks))
    requires Filter(DefineOf(name), Located(ks)) == []
    ensures Lasts(Repaired(Flat(ks), guard, o, b, name, []), guard, o)
  {
    hide Tile, Flat, Located, Filter, Bare, EndsCleanly, Plain, IsBase, Lasts, GuardReplaced, SliceSet, Defining, SingleLines, ReplacesEndif,
      IsCorrect, IsRenamed, Balanced, Count, IsDefine, IsDirective;
    var ps, at, t := Located(ks), b.open.end + 1, Token("define", Some(name));
    GuardLines(name);
    var fs := AddAfter(ks, i, Defining(name), t);
    AddedDefine(ks, fs, i, name);
    BaseWithDefine(Bare(ps), t, guard, i, j);
    BaseBounds(Located(fs), guard, i, j + 1);
    AddedClose(ps, Located(fs), i, j, t);
    if name != guard {
      var es := ReplaceEdits(fs, guard, b, name, i, j + 1, false);
      RenamedIsCorrect(Located(fs), Located(es), guard, name, o, i, j + 1, false);
      PlainLasts(es, guard, o, i, j + 1);
    } else {
      KeptIsCorrect(Located(fs), guard, o, i, j + 1);
      PlainLasts(fs, guard, o, i, j + 1);
    }
  }

  lemma {:induction false} AddedClose(ps: seq<Directive>, qs: seq<Directive>, i: nat, j: nat, t: Token)
    requires i < j < |ps| && |qs| == |ps| + 1 && Bare(qs) == Bare(ps)[..i + 1] + [t] + Bare(ps)[i + 1..]
    ensures qs[j + 1].token == ps[j].token
  {
    assert Bare(qs)[j + 1] == Bare(ps)[j];
  }

  lemma {:induction false} AddedDefine(ks: seq<Lines>, fs: seq<Lines>, i: nat, name: string)
    requires Plain(ks) && i < |Located(ks)| && IsName(name) && EndsCleanly(Flat(ks))
    requires IsAdded(ks, fs, i, Defining(name), Token("define", Some(name)))
    requires Filter(DefineOf(name), Located(ks)) == []
    ensures EndsCleanly(Flat(fs))
    ensures var at := Located(ks)[i].end + 1;
            && Flat(fs) == SliceSet(Flat(ks), at, at, [Defining(name)])
            && Filter(DefineOf(name), Located(fs)) == [Directive(Token("define", Some(name)), at, at)]
            && SingleLines(Filter(DefineOf(name), Located(fs)))
  {
    hide Tile, Flat, Located, Filter, EndsCleanly, Plain, Defining, IsDefine, IsDirective;
    var at := Located(ks)[i].end + 1;
    GuardLines(name);
    EditIsClean(Flat(ks), at, at, Defining(name), Token("define", Some(name)));
    OnlyAdded(Located(ks), Located(fs), i, name);
  }

  lemma {:induction false} OnlyAdded(ps: seq<Directive>, qs: seq<Directive>, i: nat, name: string)
    requires IsName(name) && i < |ps| && |qs| == |ps| + 1 && Filter(DefineOf(name), ps) == []
    requires Bare(qs) == Bare(ps)[..i + 1] + [Token("define", Some(name))] + Bare(ps)[i + 1..]
    ensures Filter(DefineOf(name), qs) == [qs[i + 1]]
  {
    hide Filter, Parse, Word;
    var keep, t := DefineOf(name), Token("define", Some(name));
    forall k | 0 <= k < |ps|
      ensures !keep(ps[k].token)
    {
      if keep(ps[k].token) {
        SomeKept(keep, ps, k);
      }
    }
    DefineReadsBack(name);
    var a, c := qs[..i + 1], qs[i + 2..];
    assert qs == a + [qs[i + 1]] + c;
    forall k | 0 <= k < |a|
      ensures !keep(a[k].token)
    {
      assert Bare(qs)[k] == Bare(ps)[k];
    }
    forall k | 0 <= k < |c|
      ensures !keep(c[k].token)
    {
      assert Bare(qs)[i + 2 + k] == Bare(ps)[i + 1 + k];
    }
    NoneKept(keep, a);
    NoneKept(keep, c);
    assert Bare(qs)[i + 1] == t;
    FilterOfSum(keep, a + [qs[i + 1]], c);
    FilterOfSum(keep, a, [qs[i + 1]]);
    FilterOfOne(keep, qs[i + 1]);
  }

  // A guard that is added

  lemma {:induction false} GroupsOfLines(lines: Lines)
    requires forall k | 0 <= k < |lines| :: !Continues(lines[k])
    ensures Tile(lines).pending == [] && AreGroups(Tile(lines).groups)
    ensures Directives(Tile(lines).groups) == LineDirectives(lines)
  {
    hide Tile, Directives, LineDirectives, Parse, IsGroup, Continues;
    NothingTiled();
    NoLines();
    if lines != [] {
      var n := |lines| - 1;
      GroupsOfLines(lines[..n]);
      LineAdded(lines[..n], lines[n]);
      StepDirectives(lines[..n], lines[n]);
      assert lines == lines[..n] + [lines[n]];
    }
  }

  function LineDirectives(lines: Lines): seq<Parsed> {
    if lines == [] then []
    else
      var p := Parse(lines[|lines| - 1]);
      LineDirectives(lines[..|lines| - 1]) + (if p == NotDirective then [] else [p])
  }

  lemma {:induction false} LineAdded(front: Lines, line: string)
    requires Tile(front).pending == [] && AreGroups(Tile(front).groups) && !Continues(line)
    ensures Tile(front + [line]).pending == [] && AreGroups(Tile(front + [line]).groups)
    ensures Directives(Tile(front + [line]).groups) ==
            Directives(Tile(front).groups) + (if Parse(line) == NotDirective then [] else [Parse(line)])
  {
    hide Tile, Parse, Text, Directives, Continues;
    TileStep(front, line);
    assert [] + [line] == [line];
    SingleGroup(line);
    DirectivesStep(Tile(front).groups, [line]);
  }

  lemma BlankLine()
    ensures Parse("") == NotDirective && !Continues("")
  {
  }

  /** The directives of lines put together where no group is open. */
  lemma {:induction false} DirectivesJoin(a: Lines, b: Lines)
    requires Tile(a).pending == []
    ensures AreGroups(Tile(a).groups) && AreGroups(Tile(b).groups) && AreGroups(Tile(a + b).groups)
    ensures Directives(Tile(a + b).groups) == Directives(Tile(a).groups) + Directives(Tile(b).groups)
    ensures Tile(a + b).pending == Tile(b).pending
  {
    hide Tile, Directives;
    TileCovers(a);
    TileCovers(b);
    TileCovers(a + b);
    TileOfSum(a, b);
    DirectivesOfSum(Tile(a).groups, Tile(b).groups);
  }

  lemma {:induction false} StepDirectives(lines: Lines, line: string)
    ensures LineDirectives(lines + [line]) == LineDirectives(lines) + (if Parse(line) == NotDirective then [] else [Parse(line)])
  {
    assert (lines + [line])[..|lines|] == lines;
  }

  lemma {:induction false} OpeningLines(guard: string, blank: bool)
    requires IsName(guard)
    ensures var lines := ["", Opening(guard), Defining(guard)] + (if blank then [""] else []);
            && (forall k | 0 <= k < |lines| :: !Continues(lines[k]))
            && LineDirectives(lines) == [Found(Token("ifndef", Some(guard))), Found(Token("define", Some(guard)))]
  {
    hide Parse, Opening, Defining, LineDirectives, Continues, StripRight;
    GuardLines(guard);
    BlankLine();
    NoLines();
    var x, y := Opening(guard), Defining(guard);
    StepDirectives([], "");
    StepDirectives([""], x);
    StepDirectives(["", x], y);
    StepDirectives(["", x, y], "");
    assert [] + [""] == [""] && [""] + [x] == ["", x] && ["", x] + [y] == ["", x, y] && ["", x, y] + [] == ["", x, y];
  }

  lemma NoLines()
    ensures LineDirectives([]) == [] && Directives([]) == []
  {
  }

  lemma {:induction false} ClosingLines(guard: string, blank: bool, comment: bool)
    requires IsName(guard)
    ensures var lines := (if blank then [""] else []) + [Closing(guard, comment), ""];
            && (forall k | 0 <= k < |lines| :: !Continues(lines[k]))
            && LineDirectives(lines) == [Found(Token("endif", if comment then Some("// " + guard) else None))]
  {
    hide Parse, Closing, LineDirectives, Continues, StripRight;
    CloseLine(guard, comment);
    BlankLine();
    NoLines();
    var front: Lines := if blank then [""] else [];
    StepDirectives([], "");
    assert [] + [""] == [""];
    StepDirectives(front, Closing(guard, comment));
    StepDirectives(front + [Closing(guard, comment)], "");
    assert front + [Closing(guard, comment)] + [""] == front + [Closing(guard, comment), ""];
  }

  /** Directives around which a guard was put. */
  ghost predicate IsWrapped(ts: seq<Token>, a: seq<Token>, b: seq<Token>, guard: string, comment: bool) {
    ts == a + [Token("ifndef", Some(guard)), Token("define", Some(guard))] + b
          + [Token("endif", if comment then Some("// " + guard) else None)]
  }

  lemma {:induction false} BalancedTail(a: seq<Token>, b: seq<Token>)
    requires Balanced(a + b) && Depth(a) == 0
    ensures Balanced(a) && Balanced(b)
  {
    hide Depth;
    DepthOfSum(a, b);
    forall k | 0 <= k <= |a|
      ensures Depth(a[..k]) >= 0
    {
      assert (a + b)[..k] == a[..k];
    }
    forall k | 0 <= k <= |b|
      ensures Depth(b[..k]) >= 0
    {
      assert (a + b)[..|a| + k] == a + b[..k];
      DepthOfSum(a, b[..k]);
    }
  }

  lemma {:induction false} WrappedIsCorrect(ts: seq<Token>, a: seq<Token>, b: seq<Token>, guard: string, o: Options)
    requires IsName(guard) && IsWrapped(ts, a, b, guard, o.closingComment)
    requires Balanced(a + b) && Depth(a) == 0 && Count(guard, a + b) == 0 && forall k | 0 <= k < |a + b| :: !IsOnce((a + b)[k])
    ensures IsCorrect(ts, guard, o, |a|, |ts| - 1)
  {
    hide Balanced, Count, Depth, IsOnce, CommentGuard, Word;
    var open, define := Token("ifndef", Some(guard)), Token("define", Some(guard));
    var close := Token("endif", if o.closingComment then Some("// " + guard) else None);
    BalancedTail(a, b);
    FlatIsBalanced(define);
    BalancedSum([define], b);
    BalancedPair(open, [define] + b, close);
    BalancedSum(a, [open] + ([define] + b) + [close]);
    assert ts == a + ([open] + ([define] + b) + [close]);
    assert ts[|a| + 1..|ts| - 1] == [define] + b && ts[..|a|] == a && ts[|ts|..] == [];
    CountOfSum(guard, a, b);
    NothingCounted(guard);
    assert Bare([]) == [];
    DefineReadsBack(guard);
    NameIsDefined(guard);
    assert IsDefine(guard, ts[|a| + 1]);
    CommentReadsBack(guard);
    WrappedHasNoOnce(ts, a, b, guard, o.closingComment);
  }

  lemma {:induction false} WrappedHasNoOnce(ts: seq<Token>, a: seq<Token>, b: seq<Token>, guard: string, comment: bool)
    requires IsWrapped(ts, a, b, guard, comment) && forall k | 0 <= k < |a + b| :: !IsOnce((a + b)[k])
    ensures forall k | 0 <= k < |ts| :: !IsOnce(ts[k])
  {
    forall k | 0 <= k < |ts|
      ensures !IsOnce(ts[k])
    {
      if k < |a| {
        assert ts[k] == (a + b)[k];
      } else if |a| + 2 <= k < |ts| - 1 {
        assert ts[k] == (a + b)[k - 2];
      }
    }
  }

  lemma FoundsSplit(ts: seq<Token>, a: seq<Parsed>, b: seq<Parsed>)
    requires Founds(ts) == a + b
    ensures |a| <= |ts| && a == Founds(ts[..|a|]) && b == Founds(ts[|a|..])
  {
    assert |Founds(ts)| == |ts|;
    assert a == (a + b)[..|a|] && b == (a + b)[|a|..];
  }

  /** The directives before and after a clean place. */
  lemma {:induction false} SplitAtPlace(ks: seq<Lines>, at: nat) returns (a: seq<Token>, b: seq<Token>)
    requires Plain(ks) && at < |Flat(ks)| && IsCleanPlace(Flat(ks), at)
    ensures a + b == Bare(Located(ks)) && Depth(a) == 0
    ensures var before, after := Tile(Flat(ks)[..at]), Tile(Flat(ks)[at..]);
            && AreGroups(before.groups) && Directives(before.groups) == Founds(a) && before.pending == []
            && AreGroups(after.groups) && Directives(after.groups) == Founds(b) && after.pending == []
  {
    hide Flat, Located, Directives, Founds, Bare, Tile, Kept, AllNamed, Depth;
    var lines, ts := Flat(ks), Bare(Located(ks));
    assert lines == lines[..at] + lines[at..];
    DirectivesJoin(lines[..at], lines[at..]);
    TileOfGroups(ks);
    TokensOf(ks);
    var da := Directives(Tile(lines[..at]).groups);
    FoundsSplit(ts, da, Directives(Tile(lines[at..]).groups));
    a, b := ts[..|da|], ts[|da|..];
    TokensOf(Tile(lines[..at]).groups);
    FoundsAreEqual(a, Bare(Located(Tile(lines[..at]).groups)));
  }

  /** The directives after a guard was put in. */
  lemma {:induction false} InsertedDirectives(lines: Lines, guard: string, at: nat, o: Options, a: seq<Token>, b: seq<Token>)
    returns (ts: seq<Token>)
    requires IsName(guard) && at < |lines| && !HasVimTrailer(lines)
    requires var before, after := Tile(lines[..at]), Tile(lines[at..]);
             && AreGroups(before.groups) && Directives(before.groups) == Founds(a) && before.pending == []
             && AreGroups(after.groups) && Directives(after.groups) == Founds(b) && after.pending == []
    ensures IsWrapped(ts, a, b, guard, o.closingComment) && ts != []
    ensures var out := Inserted(lines, guard, at, o.closingComment);
            EndsCleanly(out) && AreGroups(Tile(out).groups) && Directives(Tile(out).groups) == Founds(ts)
  {
    hide Directives, Founds, Tile, EndsCleanly, LineDirectives, Opening, Defining, Closing, Strip, Continues;
    var open, define := Token("ifndef", Some(guard)), Token("define", Some(guard));
    var close := Token("endif", if o.closingComment then Some("// " + guard) else None);
    ts := a + [open, define] + b + [close];
    var x := ["", Opening(guard), Defining(guard)] + (if Strip(lines[at]) != "" then [""] else []);
    var started := Opened(lines, guard, at);
    assert Last(started) == Last(lines);
    var y := (if Strip(Last(started)) != "" then [""] else []) + [Closing(guard, o.closingComment), ""];
    OpeningLines(guard, Strip(lines[at]) != "");
    ClosingLines(guard, Strip(Last(started)) != "", o.closingComment);
    GroupsOfLines(x);
    GroupsOfLines(y);
    DirectivesJoin(lines[..at], x);
    DirectivesJoin(lines[..at] + x, lines[at..]);
    DirectivesJoin(started, y);
    assert Inserted(lines, guard, at, o.closingComment) == started + y;
    WrittenTokens(a, open, define, b, close);
    CleanEnd(started, Strip(Last(started)) != "", guard, o.closingComment);
  }

  lemma WrittenTokens(a: seq<Token>, open: Token, define: Token, b: seq<Token>, close: Token)
    ensures Founds(a + [open, define] + b + [close]) == Founds(a) + [Found(open), Found(define)] + Founds(b) + [Found(close)]
  {
  }

  lemma {:induction false} CleanEnd(started: Lines, blank: bool, guard: string, comment: bool)
    requires IsName(guard)
    ensures EndsCleanly(started + ((if blank then [""] else []) + [Closing(guard, comment), ""]))
  {
    hide EndsCleanly, IsDirective, Closing;
    CloseLine(guard, comment);
    var front := started + (if blank then [""] else []);
    BlankEnd();
    CleanAround(front, Closing(guard, comment), Token("endif", if comment then Some("// " + guard) else None), [""]);
    assert front + [Closing(guard, comment)] + [""] == started + ((if blank then [""] else []) + [Closing(guard, comment), ""]);
  }

  lemma BlankEnd()
    ensures Last(Trimmed([""])) == ""
  {
  }

  lemma {:induction false} InsertLasts(ks: seq<Lines>, guard: string, o: Options, at: nat)
    requires Plain(ks) && IsName(guard) && at < |Flat(ks)| && IsCleanPlace(Flat(ks), at) && !HasVimTrailer(Flat(ks))
    requires Balanced(Bare(Located(ks))) && Count(guard, Bare(Located(ks))) == 0
    requires forall k | 0 <= k < |Bare(Located(ks))| :: !IsOnce(Bare(Located(ks))[k])
    ensures Lasts(Inserted(Flat(ks), guard, at, o.closingComment), guard, o)
  {
    hide Flat, Located, Bare, Directives, Founds, Tile, EndsCleanly, IsCleanPlace, Plain, Balanced, Count, Depth, Inserted, Lasts,
      IsCorrect, IsWrapped, HasVimTrailer;
    var a, b := SplitAtPlace(ks, at);
    var ts := InsertedDirectives(Flat(ks), guard, at, o, a, b);
    WrappedIsCorrect(ts, a, b, guard, o);
    CorrectLasts(Inserted(Flat(ks), guard, at, o.closingComment), ts, guard, o, |a|, |ts| - 1);
  }

  // The theorem

  lemma {:induction false} RemainingIsFlat(lines: Lines)
    requires EndsCleanly(Remaining(lines)) && AreGroups(Tile(lines).groups) && Plain(Kept(Tile(lines).groups))
    ensures Remaining(lines) == Flat(Kept(Tile(lines).groups))
  {
    hide Flat, EndsCleanly, Plain, Tile, Kept;
    var ks, run := Kept(Tile(lines).groups), Tile(lines).pending;
    TileCovers(lines);
    TileIsUnique(ks, run);
    TrimmingKeepsDirectives(Remaining(lines));
  }

  lemma {:induction false} RestHasNoOnce(ds: seq<Directive>)
    ensures forall k | 0 <= k < |Bare(Filter(NotOnce, ds))| :: !IsOnce(Bare(Filter(NotOnce, ds))[k])
  {
    forall k | 0 <= k < |Filter(NotOnce, ds)|
      ensures !IsOnce(Bare(Filter(NotOnce, ds))[k])
    {
      var m := FilterLift(NotOnce, ds, k);
    }
  }

  lemma {:induction false} NoGuardCounted(lines: Lines, guard: string)
    requires AreGroups(Tile(lines).groups) && ScanOf(Tile(lines).groups).Scanned?
    requires Guards(guard, ScanOf(Tile(lines).groups).tree) == []
    ensures Count(guard, Bare(Filter(NotOnce, Located(Tile(lines).groups)))) == 0
  {
    hide Tile, ScanOf, Located, Filter, Guards, Count, Bare, Flatten, AllNamed, Balanced, IsForest;
    var ds := Located(Tile(lines).groups);
    ScanSucceedsIff(Tile(lines).groups);
    GuardsAreCounted(guard, ScanOf(Tile(lines).groups).tree);
    StructuralKeeps();
    FilterCount(guard, IsStructural, ds);
    FilterCount(guard, NotOnce, ds);
  }

  lemma {:induction false} AddedGuardLasts(lines: Lines, guard: string, o: Options, out: Lines)
    requires IsName(guard) && o.inplace && IsRegular(lines, guard, o) && Settles(lines, guard, o)
    requires ScanOf(Tile(lines).groups).Scanned? && |Guards(guard, ScanOf(Tile(lines).groups).tree)| <= 1
    requires RootOf(guard, ScanOf(Tile(lines).groups).tree).None?
    requires Fix(lines, guard, o).Done? && Fix(lines, guard, o).written == Some(out)
    ensures Lasts(out, guard, o)
  {
    hide Tile, ScanOf, Located, Filter, Guards, Pragmas, Count, Bare, Flat, Kept, Plain, Lasts, Balanced, EndsCleanly, IsCleanPlace, HasContent,
      Inserted, RemoveAll, Remaining, NoOnceInside, Alternate;
    var gs := Tile(lines).groups;
    var scan := ScanOf(gs);
    RestIsPlain(lines, guard);
    RemainingIsFlat(lines);
    RestHasNoOnce(Located(gs));
    NoGuardCounted(lines, guard);
    InsertLasts(Kept(gs), guard, o, scan.licenseEnds);
  }

  lemma {:induction false} RepairedGuardLasts(lines: Lines, guard: string, o: Options, out: Lines, b: Block)
    requires IsName(guard) && o.inplace && IsRegular(lines, guard, o) && Settles(lines, guard, o)
    requires ScanOf(Tile(lines).groups).Scanned? && |Guards(guard, ScanOf(Tile(lines).groups).tree)| <= 1
    requires RootOf(guard, ScanOf(Tile(lines).groups).tree) == Some(b)
    requires Fix(lines, guard, o).Done? && Fix(lines, guard, o).written == Some(out)
    ensures Lasts(out, guard, o)
  {
    hide Tile, ScanOf, Located, Filter, Guards, Pragmas, Count, Bare, Flat, Kept, Plain, Lasts, Balanced, EndsCleanly, RepairGuard,
      Repaired, RemoveAll, Remaining, IsBase, NoOnceInside, Alternate, AllNamed, Flatten, IsForest, Defines, ReplacesEndif, SingleLines, Word;
    var gs := Tile(lines).groups;
    var scan := ScanOf(gs);
    ScanSucceedsIff(gs);
    RestIsPlain(lines, guard);
    RemainingIsFlat(lines);
    var i, j := RootIsBase(lines, guard, b);
    var ks, name := Kept(gs), Word(b.open.token.args.value);
    DefinesRemain(Located(gs), name);
    RepairWrites(Remaining(lines), guard, o, b, Located(gs), Pragmas(guard, scan.tree) != []);
    RepairLasts(ks, guard, o, b, name, i, j);
  }

  lemma {:induction false} RegularLasts(lines: Lines, guard: string, o: Options, out: Lines)
    requires IsName(guard) && o.inplace && IsRegular(lines, guard, o) && Settles(lines, guard, o)
    requires Fix(lines, guard, o).Done? && Fix(lines, guard, o).written == Some(out)
    ensures Lasts(out, guard, o)
  {
    hide Tile, ScanOf, Guards, Fix, Lasts, Remaining, Located, EndsCleanly, NoOnceInside, IsCleanPlace, IsRepairable, Alternate;
    WrittenMeansScanned(lines, guard, o);
    match RootOf(guard, ScanOf(Tile(lines).groups).tree) {
      case None => AddedGuardLasts(lines, guard, o, out);
      case Some(b) => RepairedGuardLasts(lines, guard, o, out, b);
    }
  }

  lemma {:induction false} WrittenMeansScanned(lines: Lines, guard: string, o: Options)
    requires AreGroups(Tile(lines).groups) && Fix(lines, guard, o).Done? && Fix(lines, guard, o).written.Some?
    ensures ScanOf(Tile(lines).groups).Scanned? && |Guards(guard, ScanOf(Tile(lines).groups).tree)| <= 1
  {
    hide Tile, ScanOf, Guards, Pragmas, RemoveAll, RepairGuard, AddGuard, Alternate;
  }

  lemma TwiceWritten(out: Lines)
    requires AreLines(out)
    ensures SplitLines(Written(out)) == Trimmed(out) && Written(Trimmed(out)) == Written(out)
  {
    hide Trimmed, Joined, SplitLines, StripRight, OneLine;
    ReadsBack(out);
    StripJoined(out);
    StripJoined(Trimmed(out));
    TrimmedTwice(out);
  }

  lemma UseLasts(out: Lines, guard: string, o: Options, p: Options)
    requires Lasts(out, guard, o) && p.closingComment == o.closingComment
    ensures Fix(Trimmed(out), guard, p) == Done(Ok, [FoundCorrectGuard], if p.inplace then Some(Trimmed(out)) else None)
  {
    hide Fix, Trimmed;
  }

  // What is written consists of lines

  lemma SetKeepsLines(lines: Lines, from: nat, to: nat, new_: Lines)
    requires AreLines(lines) && AreLines(new_)
    ensures AreLines(SliceSet(lines, from, to, new_))
  {
    hide OneLine;
  }

  lemma {:induction false} RemoveKeepsLines(lines: Lines, blocks: seq<Block>)
    requires AreLines(lines)
    ensures AreLines(RemoveAll(lines, blocks))
  {
    hide OneLine, SliceSet;
    if blocks != [] {
      RemoveKeepsLines(lines, blocks[..|blocks| - 1]);
      var b := blocks[|blocks| - 1];
      SetKeepsLines(RemoveAll(lines, blocks[..|blocks| - 1]), b.open.start, b.close.end + 1, []);
    }
  }

  lemma {:induction false} ReplaceKeepsLines(lines: Lines, ds: seq<Directive>, x: string)
    requires AreLines(lines) && OneLine(x)
    ensures AreLines(Replaced(lines, ds, x))
  {
    hide OneLine, SliceSet;
    if ds != [] {
      ReplaceKeepsLines(lines, ds[..|ds| - 1], x);
      var d := ds[|ds| - 1];
      SetKeepsLines(Replaced(lines, ds[..|ds| - 1], x), d.start, d.end + 1, [x]);
    }
  }

  lemma {:induction false} WordIsOneLine(s: string)
    ensures OneLine(Word(s))
  {
    if s != "" && !IsSpace(s[0]) {
      WordIsOneLine(s[1..]);
    }
  }

  lemma GuardLinesAreLines(guard: string)
    requires OneLine(guard)
    ensures OneLine(Opening(guard)) && OneLine(Defining(guard)) && OneLine(Closing(guard, true)) && OneLine(Closing(guard, false))
  {
  }

  lemma {:induction false} RepairKeepsLines(rest: Lines, guard: string, o: Options, b: Block, defines: map<string, seq<Directive>>, pragmas: bool)
    requires AreLines(rest) && OneLine(guard)
    ensures var out := RepairGuard(rest, guard, o, b, defines, pragmas);
            out.Done? && out.written.Some? ==> AreLines(out.written.value)
  {
    hide OneLine, SliceSet, Replaced, Opening, Defining, Closing, Word, WrongComment;
    if b.open.token.args.Some? && IfndefArgument(b.open.token).Some? {
      var name, at := IfndefArgument(b.open.token).value, b.open.end + 1;
      WordIsOneLine(b.open.token.args.value);
      GuardLinesAreLines(name);
      GuardLinesAreLines(guard);
      var lines := if name !in defines then SliceSet(rest, at, at, [Defining(name)]) else rest;
      SetKeepsLines(rest, at, at, [Defining(name)]);
      var l := SliceSet(lines, b.open.start, b.open.end + 1, [Opening(guard)]);
      SetKeepsLines(lines, b.open.start, b.open.end + 1, [Opening(guard)]);
      var ds := if name !in defines then [Directive(Token("define", Some(name)), at, at)] else defines[name];
      ReplaceKeepsLines(l, ds, Defining(guard));
      SetKeepsLines(Replaced(l, ds, Defining(guard)), b.close.start, b.close.end + 1, [Closing(guard, true)]);
    }
  }

  lemma {:induction false} InsertKeepsLines(rest: Lines, guard: string, at: nat, comment: bool)
    requires AreLines(rest) && OneLine(guard) && at < |rest|
    ensures AreLines(Inserted(rest, guard, at, comment))
  {
    hide OneLine, Opening, Defining, Closing, Strip, AreLines, StartsWith;
    GuardLinesAreLines(guard);
    FewAreLines(Opening(guard), Defining(guard), Closing(guard, comment));
    PartsAreLines(rest, at);
    var x := ["", Opening(guard), Defining(guard)] + (if Strip(rest[at]) != "" then [""] else []);
    SumIsLines(["", Opening(guard), Defining(guard)], if Strip(rest[at]) != "" then [""] else []);
    SumIsLines(rest[..at], x);
    SumIsLines(rest[..at] + x, rest[at..]);
    var started := Opened(rest, guard, at);
    var y: Lines := if Strip(Last(started)) != "" then [""] else [];
    SumIsLines(started, y);
    SumIsLines(started + y, [Closing(guard, comment), ""]);
  }

  lemma SumIsLines(a: Lines, b: Lines)
    requires AreLines(a) && AreLines(b)
    ensures AreLines(a + b)
  {
    hide OneLine;
  }

  lemma PartsAreLines(lines: Lines, at: nat)
    requires AreLines(lines) && at <= |lines|
    ensures AreLines(lines[..at]) && AreLines(lines[at..])
  {
    hide OneLine;
  }

  lemma FewAreLines(x: string, y: string, z: string)
    requires OneLine(x) && OneLine(y) && OneLine(z)
    ensures AreLines([]) && AreLines([""]) && AreLines(["", x, y]) && AreLines([z, ""])
  {
  }

  lemma {:induction false} WrittenAreLines(lines: Lines, guard: string, o: Options)
    requires AreLines(lines) && IsName(guard) && Fix(lines, guard, o).Done? && Fix(lines, guard, o).written.Some?
    ensures AreLines(Fix(lines, guard, o).written.value)
  {
    hide Tile, ScanOf, Guards, Pragmas, RemoveAll, RepairGuard, Inserted, HasContent, Alternate, AreLines;
    NameIsOneLine(guard);
    TileCovers(lines);
    var scan := ScanOf(Tile(lines).groups);
    if scan.Scanned? {
      var rest := RemoveAll(lines, Pragmas(guard, scan.tree));
      RemoveKeepsLines(lines, Pragmas(guard, scan.tree));
      if scan.licenseEnds < |rest| {
        InsertKeepsLines(rest, guard, scan.licenseEnds, o.closingComment);
      }
      var root := RootOf(guard, scan.tree);
      if root.Some? {
        RepairKeepsLines(rest, guard, o, root.value, scan.defines, Pragmas(guard, scan.tree) != []);
      }
    }
  }

  lemma NameIsOneLine(guard: string)
    requires IsName(guard)
    ensures OneLine(guard)
  {
  }
}
