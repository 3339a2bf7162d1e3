/** What a run of the fixer reports, and what that says of the header. */
module GuardReports {
  import opened Common
  import opened HeaderText
  import opened Splicing
  import opened Conditionals
  import opened GuardSearch
  import opened DirectiveScan
  import opened PragmaRemoval
  import opened HeaderGuard
  import opened GuardSettled
  import opened GuardEdits
  import opened GuardIdempotence
  import opened GuardBreaks

  // Checking

  /** When a run that only checks passes, a run in place leaves the lines alone. */
  lemma {:induction false} CheckIsSound(lines: Lines, guard: string, o: Options)
    requires !o.inplace && Fix(lines, guard, o).Done? && Fix(lines, guard, o).verdict == Ok
    ensures var out := Fix(lines, guard, o.(inplace := true));
            && out.Done? && out.messages == Fix(lines, guard, o).messages
            && (out.written == None || out.written == Some(lines))
  {
    hide Tile, ScanOf, Guards, Pragmas, HasContent, Alternate, WrongComment, GuardReplaced, SliceSet, IfndefArgument, Inserted;
    NothingRemoved(lines);
  }

  lemma {:induction false} RepairFoundCorrect(rest: Lines, guard: string, o: Options, b: Block, defines: map<string, seq<Directive>>, pragmas: bool)
    requires !o.inplace && RepairGuard(rest, guard, o, b, defines, pragmas) == Done(Ok, [FoundCorrectGuard], None)
    ensures IsGuard(guard, b.open.token) && guard in defines && !ReplacesEndif(guard, o, b.close.token.args)
  {
    hide SliceSet, GuardReplaced, WrongComment, Defining;
  }

  lemma {:induction false} FixFoundCorrect(lines: Lines, guard: string, o: Options) returns (b: Block)
    requires AreGroups(Tile(lines).groups) && !o.inplace && Fix(lines, guard, o) == Done(Ok, [FoundCorrectGuard], None)
    ensures var scan := ScanOf(Tile(lines).groups);
            && scan.Scanned? && |Guards(guard, scan.tree)| <= 1 && RootOf(guard, scan.tree) == Some(b)
            && IsGuard(guard, b.open.token) && guard in scan.defines && !ReplacesEndif(guard, o, b.close.token.args)
  {
    hide Tile, ScanOf, Guards, Pragmas, RemoveAll, HasContent, Alternate, RepairGuard, ReplacesEndif, IsGuard;
    var scan := ScanOf(Tile(lines).groups);
    assert scan.Scanned?;
    b := RootOf(guard, scan.tree).value;
    RepairFoundCorrect(RemoveAll(lines, Pragmas(guard, scan.tree)), guard, o, b, scan.defines, Pragmas(guard, scan.tree) != []);
  }

  lemma {:induction false} RootPairIsCorrect(ds: seq<Directive>, guard: string, o: Options, b: Block, i: nat, j: nat)
    requires IsRootPair(ds, guard, b, i, j) && Balanced(Bare(ds)) && IsGuard(guard, b.open.token) && !ReplacesEndif(guard, o, b.close.token.args)
    requires guard in Defines(ds) && forall k | 0 <= k < |ds| :: !IsOnce(Bare(ds)[k])
    ensures IsCorrect(Bare(ds), guard, o, i, j)
  {
    hide Balanced, Count, ReplacesEndif, IsDefine, Filter, Defines, IsOnce, IsGuard;
    PairIsTokenPair(ds, i, j);
    BareSlices(ds, i, j + 1);
    BareLength(ds);
    DefinesAre(ds, guard);
    var k := FilterLift(DefineOf(guard), ds, 0);
    assert IsDefine(guard, Bare(ds)[k]);
  }

  /** Without #pragma once, a check finds a correct guard exactly if the directives
      have one: conditionals that balance, an #ifndef of the name and its #endif
      with no other outside, a definition, and nothing wrong after the #endif. */
  lemma {:induction false} FoundCorrectIff(lines: Lines, ts: seq<Token>, guard: string, o: Options)
    requires AreGroups(Tile(lines).groups) && Directives(Tile(lines).groups) == Founds(ts) && !o.inplace
    requires forall k | 0 <= k < |ts| :: !IsOnce(ts[k])
    ensures Fix(lines, guard, o) == Done(Ok, [FoundCorrectGuard], None) <==> exists i: nat, j: nat :: IsCorrect(ts, guard, o, i, j)
  {
    hide Tile, Located, Directives, Bare, Founds, Balanced, Count, Guards, Flatten, Filter, Defines, ReplacesEndif, IsForest, IsOnce, AllNamed,
      ScanOf, Fix, IsCorrect, IsRootPair, Alternate, IsGuard, LicenseEnds;
    if i: nat, j: nat :| IsCorrect(ts, guard, o, i, j) {
      CorrectIsSettled(lines, ts, guard, o, i, j);
    }
    if Fix(lines, guard, o) == Done(Ok, [FoundCorrectGuard], None) {
      var b := FixFoundCorrect(lines, guard, o);
      var gs := Tile(lines).groups;
      var ds := Located(gs);
      TokensOf(gs);
      FoundsAreEqual(ts, Bare(ds));
      BareLength(ds);
      ScanSucceedsIff(gs);
      var i, j := RootIsPair(ds, ScanOf(gs).tree, guard, b);
      RootPairIsCorrect(ds, guard, o, b, i, j);
    }
  }

  lemma {:induction false} RootIsPair(ds: seq<Directive>, tree: seq<Block>, guard: string, b: Block) returns (i: nat, j: nat)
    requires IsForest(tree) && Flatten(tree) == Structural(ds) && |Guards(guard, tree)| <= 1 && RootOf(guard, tree) == Some(b)
    ensures IsRootPair(ds, guard, b, i, j)
  {
    hide Guards, Flatten, Filter, IsForest, IsRootPair, Alternate, Count;
    if |Guards(guard, tree)| == 1 {
      i, j := GuardIsRootPair(ds, tree, guard);
    } else {
      i, j := AlternateIsRootPair(ds, tree, guard);
    }
  }

  /** There is no #ifndef of the name, no block that could be a guard under
      another name, and nothing to guard. */
  predicate IsWithoutContent(lines: Lines, guard: string, ts: seq<Token>)
    requires AreGroups(Tile(lines).groups)
  {
    var scan := ScanOf(Tile(lines).groups);
    && scan.Scanned? && Count(guard, ts) == 0 && Alternate(scan.tree).None?
    && !HasContent(lines, scan.tree, 0, scan.licenseEnds)
  }

  /** A check that passes says one of two things. */
  lemma {:induction false} PassMeans(lines: Lines, guard: string, o: Options)
    requires AreGroups(Tile(lines).groups) && !o.inplace && Passes(Fix(lines, guard, o))
    ensures || Fix(lines, guard, o) == Done(Ok, [FoundCorrectGuard], None)
            || Fix(lines, guard, o) == Done(Ok, [NoContent], None)
  {
    hide Tile, ScanOf, Guards, Pragmas, RemoveAll, HasContent, Alternate, IfndefArgument, SliceSet, GuardReplaced, Defining;
  }

  lemma {:induction false} NoContentIff(lines: Lines, guard: string, o: Options)
    requires AreGroups(Tile(lines).groups) && !o.inplace
    ensures Fix(lines, guard, o) == Done(Ok, [NoContent], None) <==>
            var scan := ScanOf(Tile(lines).groups);
            && scan.Scanned? && |Guards(guard, scan.tree)| <= 1 && RootOf(guard, scan.tree).None? && Pragmas(guard, scan.tree) == []
            && !HasContent(lines, scan.tree, 0, scan.licenseEnds)
  {
    hide Tile, ScanOf, Guards, Pragmas, HasContent, Alternate, IfndefArgument, SliceSet, GuardReplaced, Defining, WrongComment;
    NothingRemoved(lines);
  }

  /** Without #pragma once, a check passes exactly if the guard is correct or there
      is no guard and nothing to guard. */
  lemma {:induction false} CheckPassesIff(lines: Lines, ts: seq<Token>, guard: string, o: Options)
    requires AreGroups(Tile(lines).groups) && Directives(Tile(lines).groups) == Founds(ts) && !o.inplace
    requires forall k | 0 <= k < |ts| :: !IsOnce(ts[k])
    ensures Passes(Fix(lines, guard, o)) <==>
            (exists i: nat, j: nat :: IsCorrect(ts, guard, o, i, j)) || IsWithoutContent(lines, guard, ts)
  {
    hide Tile, Located, Directives, Bare, Founds, Balanced, Count, Guards, Flatten, Filter, Defines, IsForest, IsOnce, AllNamed, Pragmas,
      ScanOf, Fix, IsCorrect, Alternate, LicenseEnds, HasContent;
    FoundCorrectIff(lines, ts, guard, o);
    NoContentIff(lines, guard, o);
    if Passes(Fix(lines, guard, o)) {
      PassMeans(lines, guard, o);
    }
    if ScanOf(Tile(lines).groups).Scanned? {
      NoGuardsIff(lines, ts, guard);
    }
  }

  lemma {:induction false} NoGuardsIff(lines: Lines, ts: seq<Token>, guard: string)
    requires AreGroups(Tile(lines).groups) && Directives(Tile(lines).groups) == Founds(ts) && ScanOf(Tile(lines).groups).Scanned?
    requires forall k | 0 <= k < |ts| :: !IsOnce(ts[k])
    ensures var tree := ScanOf(Tile(lines).groups).tree;
            (Guards(guard, tree) == [] <==> Count(guard, ts) == 0) && Pragmas(guard, tree) == []
  {
    hide Tile, Located, Directives, Founds, Balanced, Count, Guards, Flatten, Filter, Defines, IsForest, IsOnce, AllNamed, Pragmas, ScanOf,
      LicenseEnds, Bare;
    var gs := Tile(lines).groups;
    var ds := Located(gs);
    TokensOf(gs);
    ScanSucceedsIff(gs);
    FoundsAreEqual(ts, Bare(ds));
    BareLength(ds);
    StructuralKeeps();
    FilterCount(guard, IsStructural, ds);
    GuardsAreCounted(guard, ScanOf(gs).tree);
    forall k | 0 <= k < |ds|
      ensures !IsOnce(ds[k].token)
    {
      BareAt(ds, k);
    }
    NoneKept(IsOnce, ds);
    NoPragmas(ds, ScanOf(gs).tree, guard);
  }

  // Reports

  lemma OneMessage(x: Message, y: Message)
    ensures [x] == [y] ==> x == y
  {
    assert [x][0] == x && [y][0] == y;
  }

  predicate Mentions(out: Outcome, x: Message) {
    out.Done? && x in out.messages
  }

  lemma RepairReports(rest: Lines, guard: string, o: Options, b: Block, defines: map<string, seq<Directive>>, x: Message)
    requires !o.inplace && (x == MismatchedConditionals || x == TooManyGuards || x == MissingGuard)
    ensures !Mentions(RepairGuard(rest, guard, o, b, defines, false), x)
  {
    hide IfndefArgument, SliceSet, GuardReplaced, Defining, WrongComment;
  }

  lemma {:induction false} FailureIs(lines: Lines, guard: string, o: Options)
    requires AreGroups(Tile(lines).groups) && !o.inplace && FindsNoPragma(lines, guard)
    ensures var scan, out := ScanOf(Tile(lines).groups), Fix(lines, guard, o);
            && (out == Done(Fail, [MismatchedConditionals], None) <==> scan == ScanMismatch)
            && (out == Done(Fail, [TooManyGuards], None) <==> scan.Scanned? && |Guards(guard, scan.tree)| > 1)
            && (out == Done(Fail, [MissingGuard], None) <==>
                && scan.Scanned? && |Guards(guard, scan.tree)| <= 1 && RootOf(guard, scan.tree).None?
                && HasContent(lines, scan.tree, 0, scan.licenseEnds))
  {
    hide Tile, ScanOf, Guards, Pragmas, HasContent, Alternate, RepairGuard;
    NothingRemoved(lines);
    var scan := ScanOf(Tile(lines).groups);
    if scan.Scanned? && RootOf(guard, scan.tree).Some? {
      var b := RootOf(guard, scan.tree).value;
      RepairReports(lines, guard, o, b, scan.defines, MismatchedConditionals);
      RepairReports(lines, guard, o, b, scan.defines, TooManyGuards);
      RepairReports(lines, guard, o, b, scan.defines, MissingGuard);
    }
    OneMessage(MismatchedConditionals, TooManyGuards);
    OneMessage(MismatchedConditionals, MissingGuard);
    OneMessage(MismatchedConditionals, NoContent);
  }

  /** No #pragma once is found outside guards. */
  predicate FindsNoPragma(lines: Lines, guard: string)
    requires AreGroups(Tile(lines).groups)
  {
    ScanOf(Tile(lines).groups).Scanned? ==> Pragmas(guard, ScanOf(Tile(lines).groups).tree) == []
  }

  /** An #ifndef of the name, the first one, with another of that name after its
      #endif. */
  ghost predicate HasTwoGuards(ts: seq<Token>, guard: string) {
    exists i: nat, j: nat ::
      TokenPair(ts, i, j) && IsGuard(guard, ts[i]) && Count(guard, ts[..i]) == 0 && Count(guard, ts[j + 1..]) > 0
  }

  lemma {:induction false} TwoGuardsIff(ds: seq<Directive>, tree: seq<Block>, guard: string)
    requires IsForest(tree) && Flatten(tree) == Structural(ds)
    ensures |Guards(guard, tree)| > 1 <==> HasTwoGuards(Bare(ds), guard)
  {
    hide Balanced, Count, Guards, Flatten, Filter, IsForest, IsBlock, FlattenBlock, Bare, IsGuard, IsOpener, IsCloser;
    if i: nat, j: nat :| TokenPair(Bare(ds), i, j) && IsGuard(guard, Bare(ds)[i]) && Count(guard, Bare(ds)[..i]) == 0
                         && Count(guard, Bare(ds)[j + 1..]) > 0 {
      TokensAreLocated(ds, i, j);
      BoundsOfPair(ds, i, j);
      BareSlices(ds, i, j + 1);
      FirstIsPair(ds, tree, guard, i, j);
    }
    if |Guards(guard, tree)| > 1 {
      var i, j := FirstGuardPair(ds, tree, guard);
      BoundsOfPair(ds, i, j);
      FirstIsPair(ds, tree, guard, i, j);
      PairIsTokenPair(ds, i, j);
      BareSlices(ds, i, j + 1);
      BareAt(ds, i);
    }
  }

  lemma BoundsOfPair(ds: seq<Directive>, i: nat, j: nat)
    requires Pair(ds, i, j)
    ensures i < j < |ds| && |Bare(ds)| == |ds|
  {
  }

  lemma {:induction false} FirstGuardPair(ds: seq<Directive>, tree: seq<Block>, guard: string) returns (i: nat, j: nat)
    requires IsForest(tree) && Flatten(tree) == Structural(ds) && Guards(guard, tree) != []
    ensures Pair(ds, i, j) && IsGuard(guard, ds[i].token) && Count(guard, Bare(ds[..i])) == 0
  {
    hide Balanced, Count, Guards, Flatten, Filter, IsForest, IsBlock, FlattenBlock, Bare;
    StructuralKeeps();
    var p := FirstGuard(guard, tree);
    var b := Guards(guard, tree)[0];
    i, j := BlockIsPair(b, ds, p);
    FilterCount(guard, IsStructural, ds[..i]);
  }

  /** What a check reports of a header without #pragma once and without a lone #:
      conditionals that do not balance; two guards, neither inside the other; or
      something to guard and no block that could be a guard. */
  lemma {:induction false} ReportsIff(lines: Lines, ts: seq<Token>, guard: string, o: Options)
    requires AreGroups(Tile(lines).groups) && Directives(Tile(lines).groups) == Founds(ts) && !o.inplace
    requires forall k | 0 <= k < |ts| :: !IsOnce(ts[k])
    ensures Fix(lines, guard, o) == Done(Fail, [MismatchedConditionals], None) <==> !Balanced(ts)
    ensures Fix(lines, guard, o) == Done(Fail, [TooManyGuards], None) <==> Balanced(ts) && HasTwoGuards(ts, guard)
    ensures Fix(lines, guard, o) == Done(Fail, [MissingGuard], None) <==>
            var scan := ScanOf(Tile(lines).groups);
            && Balanced(ts) && scan.Scanned? && Count(guard, ts) == 0 && Alternate(scan.tree).None?
            && HasContent(lines, scan.tree, 0, scan.licenseEnds)
  {
    hide Tile, Located, Directives, Bare, Founds, Balanced, Count, Guards, Flatten, Filter, Defines, IsForest, IsOnce, AllNamed, Pragmas,
      Fix, Alternate, LicenseEnds, HasContent, HasTwoGuards, ParseAll, ProgressAfter;
    var gs := Tile(lines).groups;
    TokensOf(gs);
    FoundsAreEqual(ts, Bare(Located(gs)));
    ScanSucceedsIff(gs);
    NamedNeverCrashes(gs);
    if ScanOf(gs).Scanned? {
      NoGuardsIff(lines, ts, guard);
      TwoGuardsIff(Located(gs), ScanOf(gs).tree, guard);
    }
    FailureIs(lines, guard, o);
  }

  /** A run in place that writes reports that it replaced #pragma once exactly if
      the header has one outside a guard of the right name. */
  lemma {:induction false} PragmaIsReportedIff(lines: Lines, guard: string, o: Options)
    requires AreGroups(Tile(lines).groups) && Fix(lines, guard, o).Done? && Fix(lines, guard, o).written.Some?
    requires NoOnceInside(Guards(guard, ScanOf(Tile(lines).groups).tree))
    ensures Fix(lines, guard, o).verdict == Ok && |Fix(lines, guard, o).messages| == 1
    ensures Fix(lines, guard, o).messages[0] == ReplacedPragmaOnce <==> exists d :: d in Located(Tile(lines).groups) && IsOnce(d.token)
  {
    hide Tile, ScanOf, Guards, Pragmas, RemoveAll, HasContent, Alternate, IfndefArgument, SliceSet, GuardReplaced, Defining, WrongComment, Inserted,
      NoOnceInside, Located, IsOnce;
    WrittenMeansScanned(lines, guard, o);
    PragmasFoundIff(lines, guard);
  }

  lemma {:induction false} PragmasFoundIff(lines: Lines, guard: string)
    requires AreGroups(Tile(lines).groups) && ScanOf(Tile(lines).groups).Scanned?
    requires NoOnceInside(Guards(guard, ScanOf(Tile(lines).groups).tree))
    ensures Pragmas(guard, ScanOf(Tile(lines).groups).tree) != [] <==> exists d :: d in Located(Tile(lines).groups) && IsOnce(d.token)
  {
    hide Tile, ScanOf, Guards, Pragmas, Located, IsOnce, NoOnceInside, Flatten, IsForest, Defines, LicenseEnds, AllNamed, Balanced, Filter, Bare;
    var gs := Tile(lines).groups;
    var ds := Located(gs);
    ScanSucceedsIff(gs);
    PragmasAre(guard, ScanOf(gs).tree);
    OncesAreStructural(ds);
    if d :| d in ds && IsOnce(d.token) {
      var k :| 0 <= k < |ds| && ds[k] == d;
      SomeKept(IsOnce, ds, k);
    } else {
      NoneKept(IsOnce, ds);
    }
  }

  ghost predicate IsDefined(lines: Lines, name: string)
    requires AreGroups(Tile(lines).groups)
  {
    exists d :: d in Located(Tile(lines).groups) && IsDefine(name, d.token)
  }

  lemma {:induction false} DefinedIff(ds: seq<Directive>, name: string)
    ensures name in Defines(ds) <==> exists d :: d in ds && IsDefine(name, d.token)
  {
    hide Defines, Filter, IsDefine;
    DefinesAre(ds, name);
    if d :| d in ds && IsDefine(name, d.token) {
      var k :| 0 <= k < |ds| && ds[k] == d;
      SomeKept(DefineOf(name), ds, k);
    } else {
      NoneKept(DefineOf(name), ds);
    }
  }

  lemma {:induction false} CheckedRepair(rest: Lines, guard: string, o: Options, b: Block, defines: map<string, seq<Directive>>, name: string)
    requires !o.inplace && IfndefArgument(b.open.token) == Some(name)
    ensures var out, wrong := RepairGuard(rest, guard, o, b, defines, false), ReplacesEndif(guard, o, b.close.token.args);
            && (Mentions(out, MissingDefine) <==> name !in defines)
            && (Mentions(out, ExpectedGuard(guard, name)) <==> name in defines && name != guard)
            && (Mentions(out, WrongEndifComment) <==> name in defines && wrong)
            && out.Done? && (out.verdict == Warn <==> name in defines && name == guard && wrong)
  {
    hide IfndefArgument, SliceSet, GuardReplaced, Defining, CommentGuard;
  }

  lemma {:induction false} ReportedRepair(rest: Lines, guard: string, o: Options, b: Block, defines: map<string, seq<Directive>>, name: string)
    requires o.inplace && IfndefArgument(b.open.token) == Some(name)
    ensures var out, wrong := RepairGuard(rest, guard, o, b, defines, false), WrongComment(guard, b.close.token.args).Some?;
            && out.Done? && out.verdict == Ok
            && out.messages == [if name != guard then FixedGuard(name) else if wrong then FixedComment
                                else if name !in defines then AddedDefine else FoundCorrectGuard]
  {
    hide IfndefArgument, SliceSet, GuardReplaced, Defining, CommentGuard;
  }

  /** What is reported of the block taken for the guard, by its name. */
  lemma {:induction false} GuardIsReported(lines: Lines, guard: string, o: Options, b: Block, name: string)
    requires AreGroups(Tile(lines).groups) && ScanOf(Tile(lines).groups).Scanned? && FindsNoPragma(lines, guard)
    requires var tree := ScanOf(Tile(lines).groups).tree; |Guards(guard, tree)| <= 1 && RootOf(guard, tree) == Some(b)
    requires IfndefArgument(b.open.token) == Some(name)
    ensures var out, wrong := Fix(lines, guard, o), ReplacesEndif(guard, o, b.close.token.args);
            && out.Done?
            && (!o.inplace ==>
                  && (Mentions(out, MissingDefine) <==> !IsDefined(lines, name))
                  && (Mentions(out, ExpectedGuard(guard, name)) <==> IsDefined(lines, name) && name != guard)
                  && (Mentions(out, WrongEndifComment) <==> IsDefined(lines, name) && wrong)
                  && (out.verdict == Warn <==> IsDefined(lines, name) && name == guard && wrong))
            && (o.inplace ==>
                  && out.verdict == Ok
                  && out.messages == [if name != guard then FixedGuard(name)
                                      else if WrongComment(guard, b.close.token.args).Some? then FixedComment
                                      else if !IsDefined(lines, name) then AddedDefine else FoundCorrectGuard])
  {
    hide Tile, ScanOf, Guards, Pragmas, RepairGuard, Alternate, ReplacesEndif, WrongComment, Located, IsDefine, Defines, Flatten, IsForest, Filter,
      AllNamed, Balanced, Bare, LicenseEnds;
    var gs := Tile(lines).groups;
    ScanSucceedsIff(gs);
    NothingRemoved(lines);
    DefinedIff(Located(gs), name);
    if o.inplace {
      ReportedRepair(lines, guard, o, b, ScanOf(gs).defines, name);
    } else {
      CheckedRepair(lines, guard, o, b, ScanOf(gs).defines, name);
    }
  }
}
