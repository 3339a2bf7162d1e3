/** What a run in place keeps of a header. */
module GuardSurvival {
  import opened Common
  import opened HeaderText
  import opened Splicing
  import opened Conditionals
  import opened GuardSearch
  import opened DirectiveScan
  import opened PragmaRemoval
  import opened HeaderGuard
  import opened GuardSettled
  import opened GuardEdits
  import opened GuardIdempotence

  // Taking lines out

  /** The lines whose numbers are not to be dropped, in order. */
  function Without(lines: Lines, drop: int -> bool): Lines {
    if lines == [] then []
    else
      var n := |lines| - 1;
      Without(lines[..n], drop) + (if drop(n) then [] else [lines[n]])
  }

  lemma {:induction false} WithoutSame(a: Lines, b: Lines, drop: int -> bool)
    requires |a| == |b| && forall k | 0 <= k < |a| && !drop(k) :: a[k] == b[k]
    ensures Without(a, drop) == Without(b, drop)
  {
    if a != [] {
      WithoutSame(a[..|a| - 1], b[..|b| - 1], drop);
    }
  }

  lemma {:induction false} WithoutSum(a: Lines, b: Lines, p: int -> bool, q: int -> bool)
    requires forall k | 0 <= k < |b| :: p(|a| + k) == q(k)
    ensures Without(a + b, p) == Without(a, p) + Without(b, q)
    decreases |b|
  {
    if b == [] {
      assert a + b == a;
    } else {
      var n := |b| - 1;
      WithoutSum(a, b[..n], p, q);
      assert (a + b)[..|a + b| - 1] == a + b[..n];
      assert p(|a| + n) == q(n);
    }
  }

  lemma {:induction false} NoneDropped(lines: Lines, drop: int -> bool)
    requires forall k | 0 <= k < |lines| :: !drop(k)
    ensures Without(lines, drop) == lines
  {
    if lines != [] {
      NoneDropped(lines[..|lines| - 1], drop);
    }
  }

  lemma {:induction false} AllDropped(lines: Lines, drop: int -> bool)
    requires forall k | 0 <= k < |lines| :: drop(k)
    ensures Without(lines, drop) == []
  {
    if lines != [] {
      AllDropped(lines[..|lines| - 1], drop);
    }
  }

  /** Two stretches of lines, the second up to the end. */
  function Stretches(i: int, n: int, m: int): int -> bool {
    k => i <= k < i + n || k >= m
  }

  lemma {:induction false} CutTwo(a: Lines, x: Lines, b: Lines, y: Lines)
    ensures Without(a + x + b + y, Stretches(|a|, |x|, |a + x + b|)) == a + b
  {
    hide Without;
    var p := Stretches(|a|, |x|, |a + x + b|);
    var none, all := (k: int) => false, (k: int) => true;
    WithoutSum(a + x + b, y, p, all);
    WithoutSum(a + x, b, p, none);
    WithoutSum(a, x, p, all);
    NoneDropped(a, p);
    AllDropped(x, all);
    NoneDropped(b, none);
    AllDropped(y, all);
  }

  lemma CutOne(a: Lines, x: Lines, b: Lines)
    ensures Without(a + x + b, Stretches(|a|, |x|, |a + x + b|)) == a + b
  {
    hide Without, Stretches;
    CutTwo(a, x, b, []);
    assert a + x + b + [] == a + x + b;
  }

  // What is taken out

  /** A line the fixer writes. */
  predicate IsGuardLine(x: string, guard: string) {
    x == "" || x == Opening(guard) || x == Defining(guard) || x == Closing(guard, true) || x == Closing(guard, false)
  }

  predicate Touched(ds: seq<Directive>, k: int) {
    exists i | 0 <= i < |ds| :: ds[i].start == k
  }

  /** A line of the guard a header had: its #ifndef, its #endif or a definition of its name. */
  predicate IsOldLine(b: Block, ds: seq<Directive>, k: int) {
    || k == b.open.start || k == b.close.start
    || (b.open.token.args.Some? && Touched(Filter(DefineOf(Word(b.open.token.args.value)), ds), k))
  }

  predicate IsOldGuardLine(lines: Lines, guard: string, k: int) {
    TileCovers(lines);
    var scan := ScanOf(Tile(lines).groups);
    scan.Scanned? && RootOf(guard, scan.tree).Some? && IsOldLine(RootOf(guard, scan.tree).value, Located(Tile(lines).groups), k)
  }

  /** Without the fixer's own lines the result is what remained of the header
      without those of the old guard. */
  ghost predicate LeavesOthers(lines: Lines, guard: string, out: Lines, own: int -> bool, gone: int -> bool) {
    && Without(out, own) == Without(Remaining(lines), gone)
    && (forall k | 0 <= k < |out| && own(k) :: IsGuardLine(out[k], guard))
    && (forall k | 0 <= k < |Remaining(lines)| && gone(k) :: IsOldGuardLine(lines, guard, k))
  }

  ghost predicate OthersSurvive(lines: Lines, guard: string, out: Lines) {
    exists own: int -> bool, gone: int -> bool :: LeavesOthers(lines, guard, out, own, gone)
  }

  // Replacing

  lemma {:induction false} ReplacedAt(lines: Lines, ds: seq<Directive>, x: string)
    requires SingleLines(ds) && forall d | d in ds :: d.start < |lines|
    ensures |Replaced(lines, ds, x)| == |lines|
    ensures forall k | 0 <= k < |lines| :: Replaced(lines, ds, x)[k] == if Touched(ds, k) then x else lines[k]
  {
    if ds != [] {
      var n := |ds| - 1;
      ReplacedAt(lines, ds[..n], x);
      SetOne(Replaced(lines, ds[..n], x), ds[n].start, x);
      forall k
        ensures Touched(ds, k) <==> Touched(ds[..n], k) || ds[n].start == k
      {
        TouchedStep(ds, k);
      }
    }
  }

  lemma TouchedStep(ds: seq<Directive>, k: int)
    requires ds != []
    ensures var n := |ds| - 1; Touched(ds, k) <==> Touched(ds[..n], k) || ds[n].start == k
  {
    var n := |ds| - 1;
    assert forall i | 0 <= i < n :: ds[..n][i] == ds[i];
    if Touched(ds, k) {
      var i :| 0 <= i < |ds| && ds[i].start == k;
      assert i < n ==> ds[..n][i].start == k;
    }
    if Touched(ds[..n], k) {
      var i :| 0 <= i < n && ds[..n][i].start == k;
      assert ds[i].start == k;
    }
  }

  /** The lines a repair writes over. */
  function RepairLines(b: Block, ds: seq<Directive>, close: bool): int -> bool {
    k => k == b.open.start || Touched(ds, k) || (close && k == b.close.start)
  }

  /** A repair replaces the guard's own lines and no other. */
  lemma {:induction false} OnlyGuardLinesChange(lines: Lines, guard: string, b: Block, ds: seq<Directive>, close: bool)
    requires b.open.start == b.open.end < |lines| && (close ==> b.close.start == b.close.end < |lines|)
    requires SingleLines(ds) && forall d | d in ds :: d.start < |lines|
    ensures var out := GuardReplaced(lines, guard, b, ds, close);
            && |out| == |lines|
            && forall k | 0 <= k < |lines| :: if RepairLines(b, ds, close)(k) then IsGuardLine(out[k], guard) else out[k] == lines[k]
  {
    hide Opening, Defining, Closing, Replaced, Touched, SliceSet;
    SetOne(lines, b.open.start, Opening(guard));
    var l := lines[b.open.start := Opening(guard)];
    ReplacedAt(l, ds, Defining(guard));
    if close {
      SetOne(Replaced(l, ds, Defining(guard)), b.close.start, Closing(guard, true));
    }
  }

  /** The directives recorded for what remains lie inside it. */
  lemma {:induction false} RecordedInside(lines: Lines, name: string, d: Directive)
    requires AreGroups(Tile(lines).groups) && d in Filter(DefineOf(name), Located(Tile(lines).groups))
    ensures d.start <= d.end < |Remaining(lines)|
  {
    hide Tile, Located, Filter, Remaining, RemoveAll, AsBlocks;
    var ds := Located(Tile(lines).groups);
    DefinesRemain(ds, name);
    var fs := Filter(NotOnce, ds);
    var m :| 0 <= m < |Filter(DefineOf(name), fs)| && Filter(DefineOf(name), fs)[m] == d;
    var j := FilterLift(DefineOf(name), fs, m);
    PragmasRemoved(lines, j);
  }

  // Each way to write

  /** As LeavesOthers, for a repair of what remained of a header. */
  ghost predicate RepairLeaves(rest: Lines, guard: string, b: Block, ds: seq<Directive>, out: Lines, own: int -> bool, gone: int -> bool) {
    && Without(out, own) == Without(rest, gone)
    && (forall k | 0 <= k < |out| && own(k) :: IsGuardLine(out[k], guard))
    && (forall k | 0 <= k < |rest| && gone(k) :: k == b.open.start || k == b.close.start || Touched(ds, k))
  }

  lemma {:induction false} EditSurvives(rest: Lines, guard: string, b: Block, ds: seq<Directive>, close: bool)
    requires b.open.start == b.open.end < |rest| && (close ==> b.close.start == b.close.end < |rest|)
    requires SingleLines(ds) && forall d | d in ds :: d.start < |rest|
    ensures RepairLeaves(rest, guard, b, ds, GuardReplaced(rest, guard, b, ds, close), RepairLines(b, ds, close), RepairLines(b, ds, close))
  {
    hide GuardReplaced, Without, Touched, IsGuardLine;
    OnlyGuardLinesChange(rest, guard, b, ds, close);
    WithoutSame(rest, GuardReplaced(rest, guard, b, ds, close), RepairLines(b, ds, close));
  }

  lemma {:induction false} DefineSurvives(rest: Lines, guard: string, b: Block)
    requires b.open.start <= b.open.end < |rest|
    ensures var at := b.open.end + 1;
            RepairLeaves(rest, guard, b, [], SliceSet(rest, at, at, [Defining(guard)]), Stretches(at, 1, |rest| + 1), k => false)
  {
    hide Without, Defining, SliceSet;
    var at := b.open.end + 1;
    AddedLine(rest, at, Defining(guard));
    CutOne(rest[..at], [Defining(guard)], rest[at..]);
    NoneDropped(rest, k => false);
    assert rest[..at] + rest[at..] == rest;
  }

  lemma {:induction false} RenameSurvives(rest: Lines, guard: string, b: Block, name: string)
    requires b.open.start == b.open.end < |rest|
    ensures var at := b.open.end + 1;
            var d := Directive(Token("define", Some(name)), at, at);
            RepairLeaves(rest, guard, b, [], GuardReplaced(SliceSet(rest, at, at, [Defining(name)]), guard, b, [d], false),
                         Stretches(b.open.start, 2, |rest| + 1), Stretches(b.open.start, 1, |rest|))
  {
    hide Without, Opening, Defining, Closing, SliceSet, Replaced;
    var s, at := b.open.start, b.open.end + 1;
    var d := Directive(Token("define", Some(name)), at, at);
    AddedLine(rest, at, Defining(name));
    var lines := rest[..at] + [Defining(name)] + rest[at..];
    SetOne(lines, s, Opening(guard));
    ReplacedByOne(lines[s := Opening(guard)], d, Defining(guard));
    var out := lines[s := Opening(guard)][at := Defining(guard)];
    assert out == rest[..s] + [Opening(guard), Defining(guard)] + rest[at..];
    CutOne(rest[..s], [Opening(guard), Defining(guard)], rest[at..]);
    assert rest == rest[..s] + [rest[s]] + rest[at..];
    CutOne(rest[..s], [rest[s]], rest[at..]);
  }

  lemma {:induction false} RepairSurvives(rest: Lines, guard: string, o: Options, b: Block, name: string, ds: seq<Directive>)
    returns (own: int -> bool, gone: int -> bool)
    requires b.open.start <= b.open.end < |rest| && b.close.start <= b.close.end < |rest| && forall d | d in ds :: d.start < |rest|
    requires var close := ReplacesEndif(guard, o, b.close.token.args);
             && (ds == [] ==> !close)
             && (name != guard || close ==> b.open.start == b.open.end && SingleLines(ds))
             && (close ==> b.close.start == b.close.end)
    ensures RepairLeaves(rest, guard, b, ds, Repaired(rest, guard, o, b, name, ds), own, gone)
  {
    hide GuardReplaced, SliceSet, ReplacesEndif, Without, Defining, Touched, IsGuardLine, Stretches, RepairLines, SingleLines;
    var close := ReplacesEndif(guard, o, b.close.token.args);
    own, gone := k => false, k => false;
    if ds != [] {
      if name != guard || close {
        own, gone := RepairLines(b, ds, close), RepairLines(b, ds, close);
        EditSurvives(rest, guard, b, ds, close);
      }
    } else if name != guard {
      own, gone := Stretches(b.open.start, 2, |rest| + 1), Stretches(b.open.start, 1, |rest|);
      RenameSurvives(rest, guard, b, name);
    } else {
      own := Stretches(b.open.end + 1, 1, |rest| + 1);
      DefineSurvives(rest, guard, b);
    }
  }

  lemma OwnLines(a: Lines, x: Lines, b: Lines, y: Lines, guard: string)
    requires forall k | 0 <= k < |x| :: IsGuardLine(x[k], guard)
    requires forall k | 0 <= k < |y| :: IsGuardLine(y[k], guard)
    ensures var out := a + x + b + y;
            forall k | 0 <= k < |out| && Stretches(|a|, |x|, |a + x + b|)(k) :: IsGuardLine(out[k], guard)
  {
    hide IsGuardLine;
  }

  lemma {:induction false} InsertSurvives(rest: Lines, guard: string, at: nat, comment: bool) returns (own: int -> bool)
    requires at < |rest|
    ensures var out := Inserted(rest, guard, at, comment);
            Without(out, own) == rest && forall k | 0 <= k < |out| && own(k) :: IsGuardLine(out[k], guard)
  {
    hide Without, Opening, Defining, Closing, Strip, HasVimTrailer, Stretches;
    var x := ["", Opening(guard), Defining(guard)] + (if Strip(rest[at]) != "" then [""] else []);
    var started := Opened(rest, guard, at);
    var y: Lines := if HasVimTrailer(started) then []
                    else (if Strip(Last(started)) != "" then [""] else []) + [Closing(guard, comment), ""];
    own := Stretches(at, |x|, |started|);
    CutTwo(rest[..at], x, rest[at..], y);
    OwnLines(rest[..at], x, rest[at..], y, guard);
    assert Inserted(rest, guard, at, comment) == rest[..at] + x + rest[at..] + y;
    assert rest[..at] + rest[at..] == rest;
  }

  // The theorem

  /** What the directives of the root span lies inside what remains. */
  lemma {:induction false} RootInside(lines: Lines, guard: string, b: Block)
    requires AreGroups(Tile(lines).groups) && ScanOf(Tile(lines).groups).Scanned?
    requires var tree := ScanOf(Tile(lines).groups).tree;
             |Guards(guard, tree)| <= 1 && NoOnceInside(Guards(guard, tree)) && RootOf(guard, tree) == Some(b)
    ensures b.open.start <= b.open.end < |Remaining(lines)| && b.close.start <= b.close.end < |Remaining(lines)|
    ensures b.open.token.kind == "ifndef"
  {
    hide Tile, ScanOf, Located, Kept, Filter, Guards, Remaining, RemoveAll, AsBlocks, NoOnceInside, RootOf, IsBase, Count, Balanced;
    var i, j := RootIsBase(lines, guard, b);
    RestIsLocated(Tile(lines).groups);
    PragmasRemoved(lines, i);
    PragmasRemoved(lines, j);
  }

  /** The root's definition is not put in above an #endif to be rewritten. */
  predicate NoLineIsLost(lines: Lines, guard: string, o: Options)
    requires AreGroups(Tile(lines).groups)
  {
    var scan := ScanOf(Tile(lines).groups);
    scan.Scanned? && RootOf(guard, scan.tree).Some? ==>
      !LosesALine(guard, o, RootOf(guard, scan.tree).value, Located(Tile(lines).groups))
  }

  lemma {:induction false} RepairedLinesSurvive(lines: Lines, guard: string, o: Options, out: Lines, b: Block)
    requires o.inplace && IsRegular(lines, guard, o) && NoLineIsLost(lines, guard, o)
    requires ScanOf(Tile(lines).groups).Scanned? && |Guards(guard, ScanOf(Tile(lines).groups).tree)| <= 1
    requires RootOf(guard, ScanOf(Tile(lines).groups).tree) == Some(b)
    requires Fix(lines, guard, o).Done? && Fix(lines, guard, o).written == Some(out)
    ensures OthersSurvive(lines, guard, out)
  {
    hide Tile, ScanOf, Located, Filter, Guards, Pragmas, Kept, EndsCleanly, RepairGuard, Repaired, RemoveAll, Remaining, NoOnceInside,
      Alternate, Defines, ReplacesEndif, SingleLines, Word, Without, IsGuardLine, Flatten, IsForest, AllNamed, Balanced, Plain;
    var gs := Tile(lines).groups;
    ScanSucceedsIff(gs);
    RestIsPlain(lines, guard);
    RootInside(lines, guard, b);
    var name := Word(b.open.token.args.value);
    var ds := Filter(DefineOf(name), Located(gs));
    forall d | d in ds
      ensures d.start < |Remaining(lines)|
    {
      RecordedInside(lines, name, d);
    }
    RepairWrites(Remaining(lines), guard, o, b, Located(gs), Pragmas(guard, ScanOf(gs).tree) != []);
    var own, gone := RepairSurvives(Remaining(lines), guard, o, b, name, ds);
    assert LeavesOthers(lines, guard, out, own, gone);
  }

  /** Every other line survives a run in place, in order. */
  lemma {:induction false} LinesSurvive(lines: Lines, guard: string, o: Options, out: Lines)
    requires o.inplace && IsRegular(lines, guard, o) && NoLineIsLost(lines, guard, o)
    requires Fix(lines, guard, o).Done? && Fix(lines, guard, o).written == Some(out)
    ensures OthersSurvive(lines, guard, out)
  {
    hide Tile, ScanOf, Located, Guards, Pragmas, EndsCleanly, RemoveAll, Remaining, NoOnceInside, Alternate, Without, IsGuardLine,
      RepairGuard, HasContent, Inserted, IsRepairable, IsCleanPlace, IsOldLine, OthersSurvive;
    WrittenMeansScanned(lines, guard, o);
    RestIsPlain(lines, guard);
    var rest, ends := Remaining(lines), ScanOf(Tile(lines).groups).licenseEnds;
    match RootOf(guard, ScanOf(Tile(lines).groups).tree) {
      case Some(b) => RepairedLinesSurvive(lines, guard, o, out, b);
      case None =>
        var own := InsertSurvives(rest, guard, ends, o.closingComment);
        NoneDropped(rest, k => false);
        NothingGone(lines, guard, out, own);
    }
  }

  lemma NothingGone(lines: Lines, guard: string, out: Lines, own: int -> bool)
    requires Without(out, own) == Without(Remaining(lines), k => false)
    requires forall k | 0 <= k < |out| && own(k) :: IsGuardLine(out[k], guard)
    ensures OthersSurvive(lines, guard, out)
  {
    hide Without, Remaining, IsGuardLine;
    assert LeavesOthers(lines, guard, out, own, k => false);
  }
}
