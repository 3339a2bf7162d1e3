/** The two ways in which what the fixer writes does not last. */
module GuardBreaks {
  import opened Common
  import opened HeaderText
  import opened Splicing
  import opened Conditionals
  import opened GuardSearch
  import opened DirectiveScan
  import opened PragmaRemoval
  import opened HeaderGuard
  import opened GuardSettled
  import opened GuardEdits
  import opened GuardIdempotence

  // An editor trailer

  lemma {:induction false} NamedNeverCrashes(gs: seq<Lines>)
    requires AreGroups(gs) && AllNamed(gs)
    ensures ProgressAfter(gs) != Crashed
    decreases |gs|
  {
    if gs != [] {
      NamedNeverCrashes(gs[..|gs| - 1]);
    }
  }

  lemma {:induction false} UnbalancedFails(lines: Lines, ts: seq<Token>, guard: string, o: Options)
    requires AreGroups(Tile(lines).groups) && Directives(Tile(lines).groups) == Founds(ts) && Depth(ts) != 0
    ensures Fix(lines, guard, o) == Done(Fail, [MismatchedConditionals], None)
  {
    hide Tile, Located, Directives, Bare, Founds, Depth, ParseAll, NeverNegative, AllNamed, Adjust, LicenseEnds, Defines;
    var gs := Tile(lines).groups;
    TokensOf(gs);
    FoundsAreEqual(ts, Bare(Located(gs)));
    NamedNeverCrashes(gs);
    ScanSucceedsIff(gs);
  }

  lemma {:induction false} StartedDirectives(lines: Lines, guard: string, at: nat, a: seq<Token>, b: seq<Token>) returns (ts: seq<Token>)
    requires IsName(guard) && at < |lines|
    requires var before, after := Tile(lines[..at]), Tile(lines[at..]);
             && AreGroups(before.groups) && Directives(before.groups) == Founds(a) && before.pending == []
             && AreGroups(after.groups) && Directives(after.groups) == Founds(b) && after.pending == []
    ensures Depth(ts) == Depth(a + b) + 1
    ensures AreGroups(Tile(Opened(lines, guard, at)).groups) && Directives(Tile(Opened(lines, guard, at)).groups) == Founds(ts)
  {
    hide Directives, Founds, Tile, LineDirectives, Opening, Defining, Strip, Continues, Depth;
    var open, define := Token("ifndef", Some(guard)), Token("define", Some(guard));
    ts := a + [open, define] + b;
    var x := ["", Opening(guard), Defining(guard)] + (if Strip(lines[at]) != "" then [""] else []);
    OpeningLines(guard, Strip(lines[at]) != "");
    GroupsOfLines(x);
    DirectivesJoin(lines[..at], x);
    DirectivesJoin(lines[..at] + x, lines[at..]);
    StartedTokens(a, open, define, b);
    StartedDepth(a, open, define, b);
  }

  lemma StartedTokens(a: seq<Token>, open: Token, define: Token, b: seq<Token>)
    ensures Founds(a + [open, define] + b) == Founds(a) + [Found(open), Found(define)] + Founds(b)
  {
  }

  lemma {:induction false} StartedDepth(a: seq<Token>, open: Token, define: Token, b: seq<Token>)
    requires IsOpener(open) && define.kind == "define"
    ensures Depth(a + [open, define] + b) == Depth(a + b) + 1
  {
    hide Depth;
    DepthOfSum(a + [open, define], b);
    DepthOfSum(a, [open, define]);
    assert [open, define] == [open] + [define];
    DepthOfSum([open], [define]);
    DepthOfOne(open);
    DepthOfOne(define);
    DepthOfSum(a, b);
  }

  lemma {:induction false} StartedIsClean(lines: Lines, guard: string, at: nat)
    requires IsName(guard) && at < |lines| && EndsCleanly(lines)
    ensures EndsCleanly(Opened(lines, guard, at))
  {
    hide Trimmed, Opening, Defining, Strip;
    assert lines == lines[..at] + lines[at..];
    LastTrimmed(lines[..at], lines[at..]);
    var x := ["", Opening(guard), Defining(guard)] + (if Strip(lines[at]) != "" then [""] else []);
    LastTrimmed(lines[..at] + x, lines[at..]);
    LastTrimmed(lines[..at], x);
    OpeningEnds(guard, Strip(lines[at]) != "");
  }

  lemma OpeningEnds(guard: string, blank: bool)
    requires IsName(guard)
    ensures Last(Trimmed(["", Opening(guard), Defining(guard)] + (if blank then [""] else []))) == Defining(guard)
    ensures Defining(guard) != "" && !Continues(Defining(guard))
  {
    hide Parse;
    GuardLines(guard);
    var x := ["", Opening(guard), Defining(guard)];
    assert x[..2] == ["", Opening(guard)];
    assert Last(Trimmed(x)) == Defining(guard);
    if blank {
      LastTrimmed(x, [""]);
      BlankEnd();
    } else {
      assert x + [] == x;
    }
  }

  /** A guard added above an editor trailer is never closed: the next run, with
      any options, rejects what this one wrote. */
  lemma {:induction false} TrailerBreaksTheGuard(lines: Lines, guard: string, o: Options, p: Options)
    requires IsName(guard) && o.inplace && AreGroups(Tile(lines).groups) && EndsCleanly(Remaining(lines))
    requires ScanOf(Tile(lines).groups).Scanned? && RootOf(guard, ScanOf(Tile(lines).groups).tree).None?
    requires Guards(guard, ScanOf(Tile(lines).groups).tree) == []
    requires HasVimTrailer(Remaining(lines)) && IsCleanPlace(Remaining(lines), ScanOf(Tile(lines).groups).licenseEnds)
    requires Fix(lines, guard, o).Done? && Fix(lines, guard, o).written.Some?
    ensures Fix(Trimmed(Fix(lines, guard, o).written.value), guard, p) == Done(Fail, [MismatchedConditionals], None)
  {
    hide Tile, ScanOf, Located, Filter, Guards, Pragmas, Count, Bare, Flat, Kept, Plain, Balanced, EndsCleanly, IsCleanPlace, HasContent,
      RemoveAll, Remaining, NoOnceInside, Alternate, Directives, Depth, Founds, Opened, Trimmed, HasVimTrailer;
    var gs := Tile(lines).groups;
    var ends := ScanOf(gs).licenseEnds;
    EmptyHasNoOnce();
    RestIsPlain(lines, guard);
    RemainingIsFlat(lines);
    var rest := Remaining(lines);
    TrailerStays(rest, guard, ends);
    var a, b := SplitAtPlace(Kept(gs), ends);
    var ts := StartedDirectives(rest, guard, ends, a, b);
    BalancedDepth(a + b);
    StartedIsClean(rest, guard, ends);
    TrimmingKeepsDirectives(Opened(rest, guard, ends));
    UnbalancedFails(Trimmed(Opened(rest, guard, ends)), ts, guard, p);
  }

  lemma EmptyHasNoOnce()
    ensures NoOnceInside([])
  {
  }

  lemma BalancedDepth(ts: seq<Token>)
    requires Balanced(ts)
    ensures Depth(ts) == 0
  {
  }

  lemma TrailerStays(rest: Lines, guard: string, at: nat)
    requires at < |rest| && HasVimTrailer(rest)
    ensures HasVimTrailer(Opened(rest, guard, at))
  {
    assert Last(Opened(rest, guard, at)) == Last(rest);
  }

  // A guard that is not defined and whose #endif is rewritten

  /** The definition is put in without moving the #endif's coordinates: the line
      above the #endif is overwritten, and the old #endif stays. */
  lemma {:induction false} UndefinedGuardLosesALine(a: Lines, x: string, m: Lines, y: string, z: Lines, guard: string, o: Options,
                                                    b: Block, name: string)
    requires b.open.start == b.open.end == |a| && b.close.start == b.close.end == |a| + 1 + |m|
    requires ReplacesEndif(guard, o, b.close.token.args)
    ensures var out := Repaired(a + [x] + m + [y] + z, guard, o, b, name, []);
            if m == [] then out == a + [Opening(guard), Closing(guard, true), y] + z
            else out == a + [Opening(guard), Defining(guard)] + m[..|m| - 1] + [Closing(guard, true), y] + z
  {
    hide ReplacesEndif, Closing, Opening, Defining, SliceSet, Replaced;
    var rest, at, c := a + [x] + m + [y] + z, b.open.end + 1, b.close.start;
    var d := Directive(Token("define", Some(name)), at, at);
    AddedLine(rest, at, Defining(name));
    var lines := rest[..at] + [Defining(name)] + rest[at..];
    SetOne(lines, b.open.start, Opening(guard));
    var l := lines[b.open.start := Opening(guard)];
    ReplacedByOne(l, d, Defining(guard));
    SetOne(l[at := Defining(guard)], c, Closing(guard, true));
    var out := Repaired(rest, guard, o, b, name, []);
    assert out == lines[b.open.start := Opening(guard)][at := Defining(guard)][c := Closing(guard, true)];
  }

  /** A run that finds nothing to complain of. */
  predicate Passes(out: Outcome) {
    out.Done? && out.verdict == Ok
  }

  lemma {:induction false} UnscannedFails(lines: Lines, guard: string, o: Options)
    requires AreGroups(Tile(lines).groups) && !AllNamed(Tile(lines).groups)
    ensures !Passes(Fix(lines, guard, o))
  {
    hide Tile, Located, Bare, AllNamed, Balanced, Adjust, Flatten, IsForest, Filter, Defines, LicenseEnds;
    ScanSucceedsIff(Tile(lines).groups);
  }

  lemma {:induction false} NeverBelow(v: seq<Token>, u: seq<Token>)
    requires NeverNegative(v) && |u| <= 1 && Depth(v + u) == 0
    ensures Balanced(v + u)
  {
    hide Depth;
    forall k | 0 <= k <= |v + u|
      ensures Depth((v + u)[..k]) >= 0
    {
      if k <= |v| {
        assert (v + u)[..k] == v[..k];
      } else {
        assert (v + u)[..k] == v + u;
      }
    }
  }

  lemma {:induction false} DepthAround(a: seq<Token>, open: Token, m: seq<Token>, close: Token, z: seq<Token>)
    requires IsOpener(open) && IsCloser(close)
    ensures Depth(a + [open] + m + [close] + z) == Depth(a) + Depth(m) + Depth(z)
  {
    hide Depth;
    DepthOfSum(a + [open] + m + [close], z);
    DepthOfSum(a + [open] + m, [close]);
    DepthOfSum(a + [open], m);
    DepthOfSum(a, [open]);
    DepthOfOne(open);
    DepthOfOne(close);
  }

  /** A check rejects directives whose first guard, if they balance at all, has an
      #endif to be rewritten. */
  lemma {:induction false} WrongEndFails(lines: Lines, guard: string, o: Options, a: seq<Token>, open: Token, v: seq<Token>, u: seq<Token>,
                                         close: Token, z: seq<Token>)
    requires AreGroups(Tile(lines).groups) && Directives(Tile(lines).groups) == Founds(a + [open] + (v + u) + [close] + z)
    requires IsGuard(guard, open) && IsCloser(close) && Count(guard, a) == 0 && Depth(a) + Depth(z) == 0
    requires NeverNegative(v) && |u| <= 1
    requires !o.inplace && ReplacesEndif(guard, o, close.args)
    ensures !Passes(Fix(lines, guard, o))
  {
    hide Tile, Located, Directives, Bare, Founds, Balanced, Count, Depth, NeverNegative, Guards, Pragmas, Flatten, Filter, RemoveAll, Defines,
      ReplacesEndif, IsForest, AllNamed, ScanOf, Fix;
    var ts := a + [open] + (v + u) + [close] + z;
    DepthAround(a, open, v + u, close, z);
    if Depth(ts) != 0 {
      UnbalancedFails(lines, ts, guard, o);
    } else {
      NeverBelow(v, u);
      var i, j := |a|, |a| + 1 + |v + u|;
      assert ts[i + 1..j] == v + u && ts[..i] == a && ts[j] == close;
      PairWithWrongEnd(lines, guard, o, ts, i, j);
    }
  }

  lemma {:induction false} PairWithWrongEnd(lines: Lines, guard: string, o: Options, ts: seq<Token>, i: nat, j: nat)
    requires AreGroups(Tile(lines).groups) && Directives(Tile(lines).groups) == Founds(ts)
    requires TokenPair(ts, i, j) && IsGuard(guard, ts[i]) && Count(guard, ts[..i]) == 0
    requires !o.inplace && ReplacesEndif(guard, o, ts[j].args)
    ensures !Passes(Fix(lines, guard, o))
  {
    hide Tile, Located, Directives, Bare, Founds, Balanced, Count, Guards, Pragmas, Flatten, Filter, RemoveAll, Defines, ReplacesEndif,
      IsForest, AllNamed, ScanOf, RepairGuard, Pair, TokenPair, AddGuard, LicenseEnds;
    var gs := Tile(lines).groups;
    var ds := Located(gs);
    TokensOf(gs);
    FoundsAreEqual(ts, Bare(ds));
    ScanSucceedsIff(gs);
    if ScanOf(gs).Scanned? {
      TokensAreLocated(ds, i, j);
      FirstIsPair(ds, ScanOf(gs).tree, guard, i, j);
      forall rest: Lines, pragmas: bool
        ensures !Passes(RepairGuard(rest, guard, o, Guards(guard, ScanOf(gs).tree)[0], ScanOf(gs).defines, pragmas))
      {
        RepairComplains(rest, guard, o, Guards(guard, ScanOf(gs).tree)[0], ScanOf(gs).defines, pragmas);
      }
    }
  }

  lemma {:induction false} TokensAreLocated(ds: seq<Directive>, i: nat, j: nat)
    requires TokenPair(Bare(ds), i, j)
    ensures Pair(ds, i, j) && ds[i].token == Bare(ds)[i] && ds[j].token == Bare(ds)[j]
    ensures Bare(ds[..i]) == Bare(ds)[..i]
  {
    hide Balanced;
    PairIsTokenPair(ds, i, j);
    BareSlices(ds, i, j);
  }

  lemma RepairComplains(rest: Lines, guard: string, o: Options, b: Block, defines: map<string, seq<Directive>>, pragmas: bool)
    requires !o.inplace && IsGuard(guard, b.open.token) && ReplacesEndif(guard, o, b.close.token.args)
    ensures !Passes(RepairGuard(rest, guard, o, b, defines, pragmas))
  {
    hide SliceSet, GuardReplaced, WrongComment, Defining;
  }

  // Where the groups of a guard's directives are

  /** The group that holds the j-th directive. */
  ghost predicate HoldsDirective(ks: seq<Lines>, j: nat, q: nat)
    requires Plain(ks)
  {
    && j < |Located(ks)| && q < |ks| && Plain(ks[..q])
    && Located(ks)[j].start == |Flat(ks[..q])| && Located(ks)[j].end + 1 == Located(ks)[j].start + |ks[q]|
    && Parse(Text(ks[q])) == Found(Located(ks)[j].token)
    && Located(ks[..q]) == Located(ks)[..j]
  }

  lemma {:induction false} FindGroup(ks: seq<Lines>, j: nat) returns (q: nat)
    requires Plain(ks) && j < |Located(ks)|
    ensures HoldsDirective(ks, j, q)
    decreases |ks|
  {
    hide Located, Flat, Plain, Parse, Text;
    LocatedOfNone();
    var front, g := ks[..|ks| - 1], ks[|ks| - 1];
    assert ks == front + [g];
    PlainParts(front, g);
    PlainLocated(front, g);
    if j < |Located(front)| {
      q := FindGroup(front, j);
      assert ks[..q] == front[..q];
    } else {
      q := |front|;
    }
  }

  /** A file cut at two of its directives that stand on one line each. */
  datatype Cut = Cut(before: seq<Lines>, open: string, inside: seq<Lines>, close: string, after: seq<Lines>)

  function Whole(c: Cut): seq<Lines> {
    c.before + [[c.open]] + c.inside + [[c.close]] + c.after
  }

  ghost predicate IsCut(c: Cut, ts: seq<Token>, i: nat, j: nat) {
    && i < j < |ts| && !Continues(c.open) && !Continues(c.close) && Parse(c.close) == Found(ts[j])
    && AreGroups(c.before) && AreGroups(c.inside) && AreGroups(c.after)
    && Directives(c.before) == Founds(ts[..i])
    && Directives(c.inside) == Founds(ts[i + 1..j])
    && Directives(c.after) == Founds(ts[j + 1..])
  }

  lemma {:induction false} SplitAtGroup(ks: seq<Lines>, j: nat, q: nat)
    requires Plain(ks) && HoldsDirective(ks, j, q) && Located(ks)[j].start == Located(ks)[j].end
    ensures |ks[q]| == 1 && ks == ks[..q] + [[ks[q][0]]] + ks[q + 1..] && !Continues(ks[q][0]) && Parse(ks[q][0]) == Found(Located(ks)[j].token)
    ensures Flat(ks) == Flat(ks[..q]) + [ks[q][0]] + Flat(ks[q + 1..])
    ensures AreGroups(ks[..q]) && AreGroups(ks[q + 1..])
    ensures Directives(ks[..q]) == Founds(Bare(Located(ks))[..j])
    ensures Directives(ks[q + 1..]) == Founds(Bare(Located(ks))[j + 1..])
  {
    hide Located, Flat, Kept, Parse, Directives, Founds, Bare, IsGroup, Text, AllNamed;
    var g := ks[q];
    assert g == [g[0]];
    assert IsGroup(g);
    SingleText(g[0]);
    assert ks == ks[..q] + [g] + ks[q + 1..];
    FlatOfSum(ks[..q] + [g], ks[q + 1..]);
    FlatStep(ks[..q], g);
    DirectivesStep(ks[..q], g);
    DirectivesOfSum(ks[..q] + [g], ks[q + 1..]);
    TokensOf(ks);
    TokensOf(ks[..q]);
    BareLength(Located(ks));
    BareSlices(Located(ks), j, |Located(ks)|);
    BareAt(Located(ks), j);
    TailOfFounds(Bare(Located(ks)), j, Directives(ks[q + 1..]));
  }

  lemma SingleText(x: string)
    requires IsGroup([x])
    ensures !Continues(x) && Text([x]) == x
  {
    assert [x][..0] == [];
  }

  lemma TailOfFounds(ts: seq<Token>, j: nat, b: seq<Parsed>)
    requires j < |ts| && Founds(ts) == Founds(ts[..j]) + [Found(ts[j])] + b
    ensures b == Founds(ts[j + 1..])
  {
    assert b == (Founds(ts[..j]) + [Found(ts[j])] + b)[j + 1..];
  }

  lemma {:induction false} CutAt(ks: seq<Lines>, i: nat, j: nat) returns (c: Cut)
    requires Plain(ks) && i < j < |Located(ks)|
    requires Located(ks)[i].start == Located(ks)[i].end && Located(ks)[j].start == Located(ks)[j].end
    ensures ks == Whole(c) && IsCut(c, Bare(Located(ks)), i, j)
    ensures Flat(ks) == Flat(c.before) + [c.open] + Flat(c.inside) + [c.close] + Flat(c.after)
    ensures |Flat(c.before)| == Located(ks)[i].start && |Flat(c.before)| + 1 + |Flat(c.inside)| == Located(ks)[j].start
  {
    hide Located, Flat, Plain, Parse, Directives, Founds, Bare, Text, Continues, IsGroup;
    var ps := Located(ks);
    BareLength(ps);
    var r := FindGroup(ks, j);
    SplitAtGroup(ks, j, r);
    var front := ks[..r];
    var q := FindGroup(front, i);
    SplitAtGroup(front, i, q);
    c := Cut(front[..q], front[q][0], front[q + 1..], ks[r][0], ks[r + 1..]);
    BareSlices(ps, j, j);
    assert Bare(ps)[..j][..i] == Bare(ps)[..i] && Bare(ps)[..j][i + 1..] == Bare(ps)[i + 1..j];
    BareAt(ps, j);
  }

  lemma BareAt(ds: seq<Directive>, j: nat)
    requires j < |ds|
    ensures Bare(ds)[j] == ds[j].token
  {
  }

  /** What ends up between the guard's first line and its old #endif. */
  lemma {:induction false} Overwritten(inside: seq<Lines>, m: seq<Token>, guard: string)
    returns (mid: seq<Lines>, v: seq<Token>, u: seq<Token>)
    requires IsName(guard) && AreGroups(inside) && Directives(inside) == Founds(m) && NeverNegative(m)
    ensures AreGroups(mid) && NeverNegative(v) && |u| <= 1
    ensures AllNamed(mid) ==> Directives(mid) == Founds(v + u)
    ensures Flat(mid) == if Flat(inside) == [] then [Closing(guard, true)]
                         else [Defining(guard)] + Flat(inside)[..|Flat(inside)| - 1] + [Closing(guard, true)]
  {
    hide Flat, Directives, Founds, IsGroup, Parse, Text, NeverNegative, Defining, Closing, Depth;
    CloseLine(guard, true);
    GuardLines(guard);
    NothingTiled();
    if inside == [] {
      mid, v, u := [[Closing(guard, true)]], [], [Token("endif", Some("// " + guard))];
      OneLineGroup(Closing(guard, true), u[0]);
      NothingBelow();
      assert v + u == u;
    } else {
      var front, g := FrontAndLast(inside);
      var define := Token("define", Some(guard));
      var h := g[..|g| - 1] + [Closing(guard, true)];
      NewLastLine(g, Closing(guard, true));
      DirectivesStep(front, g);
      FlatStep(front, g);
      assert Flat(inside)[..|Flat(inside)| - 1] == Flat(front) + g[..|g| - 1];
      var n := |Directives(front)|;
      FoundsSplit(m, Directives(front), Founds(m)[n..]);
      OneLineGroup(Defining(guard), define);
      v, u := [define] + m[..n], if Parse(Text(h)).Found? then [Parse(Text(h)).token] else [];
      DefinedFirst(define, m, n);
      mid := [[Defining(guard)]] + front + [h];
      FlatStep([[Defining(guard)]] + front, h);
      FlatOfSum([[Defining(guard)]], front);
      DirectivesOfSum([[Defining(guard)]], front);
      DirectivesStep([[Defining(guard)]] + front, h);
      assert mid[|mid| - 1] == h;
      FoundsOf(define, m[..n], u);
    }
  }

  lemma NothingBelow()
    ensures NeverNegative([])
  {
    var none: seq<Token> := [];
    assert forall k | 0 <= k <= 0 :: none[..k] == [];
  }

  lemma FoundsOf(define: Token, m: seq<Token>, u: seq<Token>)
    ensures Founds([define] + m + u) == [Found(define)] + Founds(m) + Founds(u)
    ensures Founds([]) == [] && (|u| == 1 ==> Founds(u) == [Found(u[0])])
  {
  }

  lemma {:induction false} DefinedFirst(define: Token, m: seq<Token>, n: nat)
    requires define.kind == "define" && NeverNegative(m) && n <= |m|
    ensures NeverNegative([define] + m[..n])
  {
    hide Depth;
    var v := [define] + m[..n];
    DepthOfOne(define);
    forall k | 0 <= k <= |v|
      ensures Depth(v[..k]) >= 0
    {
      if k == 0 {
        assert v[..k] == m[..0];
      } else {
        assert v[..k] == [define] + m[..k - 1];
        DepthOfSum([define], m[..k - 1]);
      }
    }
  }

  lemma {:induction false} OneLineGroup(x: string, t: Token)
    requires IsDirective(x, t)
    ensures AreGroups([[x]]) && Flat([[x]]) == [x] && Directives([[x]]) == [Found(t)]
    ensures Founds([t]) == [Found(t)]
  {
    hide Flat, Directives, Parse, Text, IsGroup, Founds;
    SingleGroup(x);
    NothingTiled();
    NoLines();
    FlatStep([], [x]);
    DirectivesStep([], [x]);
    assert [] + [[x]] == [[x]];
    assert Founds([t]) == [Found(t)] by {
      FoundsOf(t, [], [t]);
    }
  }

  lemma {:induction false} NewLastLine(g: Lines, x: string)
    requires IsGroup(g) && !Continues(x)
    ensures IsGroup(g[..|g| - 1] + [x])
  {
    GroupIs(g[..|g| - 1], x);
  }

  /** What is read once a line was overwritten. */
  lemma {:induction false} WrittenOver(c: Cut, ts: seq<Token>, guard: string, i: nat, j: nat)
    returns (es: seq<Lines>, v: seq<Token>, u: seq<Token>)
    requires IsName(guard) && IsCut(c, ts, i, j) && NeverNegative(ts[i + 1..j])
    ensures AreGroups(es) && NeverNegative(v) && |u| <= 1
    ensures AllNamed(es) ==> Directives(es) == Founds(ts[..i] + [Token("ifndef", Some(guard))] + (v + u) + [ts[j]] + ts[j + 1..])
    ensures var a, m, z := Flat(c.before), Flat(c.inside), Flat(c.after);
            Flat(es) == if m == [] then a + [Opening(guard), Closing(guard, true), c.close] + z
                        else a + [Opening(guard), Defining(guard)] + m[..|m| - 1] + [Closing(guard, true), c.close] + z
  {
    hide Flat, Directives, Founds, IsGroup, Parse, Text, NeverNegative, Opening, Defining, Closing, Continues;
    var open := Token("ifndef", Some(guard));
    GuardLines(guard);
    OneLineGroup(Opening(guard), open);
    var mid;
    mid, v, u := Overwritten(c.inside, ts[i + 1..j], guard);
    var front := c.before + [[Opening(guard)]];
    es := front + mid + [[c.close]] + c.after;
    SingleGroup(c.close);
    FlatStep(c.before, [Opening(guard)]);
    FlatOfSum(front, mid);
    FlatStep(front + mid, [c.close]);
    FlatOfSum(front + mid + [[c.close]], c.after);
    SingleGroup(Opening(guard));
    DirectivesStep(c.before, [Opening(guard)]);
    DirectivesOfSum(front, mid);
    DirectivesStep(front + mid, [c.close]);
    DirectivesOfSum(front + mid + [[c.close]], c.after);
    NamedInside(front, mid, [[c.close]] + c.after);
    assert es == front + mid + ([[c.close]] + c.after);
    FoundsAround(ts[..i], open, v + u, ts[j], ts[j + 1..]);
  }

  lemma {:induction false} NamedInside(a: seq<Lines>, b: seq<Lines>, c: seq<Lines>)
    requires AreGroups(a) && AreGroups(b) && AreGroups(c) && AreGroups(a + b + c)
    ensures AllNamed(a + b + c) ==> AllNamed(b)
  {
    hide Parse, Text, IsGroup;
    assert forall k | 0 <= k < |b| :: b[k] == (a + b + c)[|a| + k];
  }

  lemma FoundsAround(a: seq<Token>, open: Token, m: seq<Token>, close: Token, z: seq<Token>)
    ensures Founds(a + [open] + m + [close] + z) == Founds(a) + [Found(open)] + Founds(m) + [Found(close)] + Founds(z)
  {
  }

  lemma {:induction false} SolidEnd(p: Lines, q: Lines, y: string, z: Lines)
    requires EndsCleanly(p + [y] + z) && Parse(y).Found?
    ensures EndsCleanly(q + [y] + z)
  {
    NotBlank(y);
    hide Trimmed, Parse, StripRight;
    assert p + [y] + z == p + ([y] + z) && q + [y] + z == q + ([y] + z);
    LastTrimmed(p, [y] + z);
    LastTrimmed(q, [y] + z);
    LastTrimmed([y], z);
  }

  lemma NotBlank(y: string)
    requires Parse(y).Found?
    ensures Last(Trimmed([y])) != ""
  {
    assert StripRight(y) != "";
  }

  lemma {:induction false} InsideIsNeverNegative(ts: seq<Token>, guard: string, i: nat, j: nat)
    requires IsBase(ts, guard, i, j)
    ensures NeverNegative(ts[i + 1..j]) && Count(guard, ts[..i]) == 0 && IsCloser(ts[j])
    ensures Depth(ts[..i]) + Depth(ts[j + 1..]) == 0
  {
    hide Depth, Count;
    DepthAround(ts[..i], ts[i], ts[i + 1..j], ts[j], ts[j + 1..]);
    assert ts == ts[..i] + [ts[i]] + ts[i + 1..j] + [ts[j]] + ts[j + 1..];
  }

  lemma SameReplacement(guard: string, o: Options, p: Options, args: Option<string>)
    requires ReplacesEndif(guard, o, args) && p.closingComment == o.closingComment
    ensures ReplacesEndif(guard, p, args)
  {
  }

  lemma NamedGuard(guard: string)
    requires IsName(guard)
    ensures IsGuard(guard, Token("ifndef", Some(guard)))
  {
    DefineReadsBack(guard);
  }

  /** A check rejects what was written over a line: either the conditionals no
      longer balance, or the guard's #endif is as wrong as before. */
  lemma {:induction false} UndefinedGuardBreaks(ks: seq<Lines>, guard: string, o: Options, b: Block, name: string, i: nat, j: nat)
    requires Plain(ks) && IsName(guard) && EndsCleanly(Flat(ks))
    requires IsBase(Bare(Located(ks)), guard, i, j) && i < j < |Located(ks)|
    requires Located(ks)[i] == b.open && Located(ks)[j] == b.close
    requires b.open.start == b.open.end && b.close.start == b.close.end
    requires ReplacesEndif(guard, o, b.close.token.args)
    ensures !Passes(Fix(Trimmed(Repaired(Flat(ks), guard, o, b, name, [])), guard, o.(inplace := false)))
  {
    hide Flat, Directives, Founds, Located, Bare, IsGroup, Parse, Text, NeverNegative, Opening, Defining, Closing, Continues, Plain, Trimmed,
      EndsCleanly, Fix, Repaired, Balanced, Count, Depth, Tile, Passes, ReplacesEndif, IsOnce, AllNamed, IsGuard;
    var ts := Bare(Located(ks));
    var c := CutAt(ks, i, j);
    BareAt(Located(ks), j);
    InsideIsNeverNegative(ts, guard, i, j);
    var es, v, u := WrittenOver(c, ts, guard, i, j);
    var a, m, z := Flat(c.before), Flat(c.inside), Flat(c.after);
    UndefinedGuardLosesALine(a, c.open, m, c.close, z, guard, o, b, name);
    var out := Repaired(Flat(ks), guard, o, b, name, []);
    var head := if m == [] then a + [Opening(guard), Closing(guard, true)]
                else a + [Opening(guard), Defining(guard)] + m[..|m| - 1] + [Closing(guard, true)];
    assert out == head + [c.close] + z;
    SolidEnd(a + [c.open] + m, head, c.close, z);
    TileOfGroups(es);
    TrimmingKeepsDirectives(out);
    var gs := Tile(Trimmed(out)).groups;
    TokensOf(gs);
    TokensOf(es);
    if AllNamed(gs) {
      var open, p := Token("ifndef", Some(guard)), o.(inplace := false);
      NamedGuard(guard);
      SameReplacement(guard, o, p, ts[j].args);
      WrongEndFails(Trimmed(out), guard, p, ts[..i], open, v, u, ts[j], ts[j + 1..]);
    } else {
      UnscannedFails(Trimmed(out), guard, o.(inplace := false));
    }
  }
}
