/** Headers on which the fixer falls short. */
module GuardExamples {
  import opened Common
  import opened HeaderText
  import opened Splicing
  import opened Conditionals
  import opened GuardSearch
  import opened DirectiveScan
  import opened PragmaRemoval
  import opened HeaderGuard
  import opened GuardContent
  import opened GuardSettled
  import opened GuardEdits
  import opened GuardIdempotence
  import opened GuardBreaks
  import opened GuardLimits
  import opened ConditionalWords

  // Headers without directives

  /** In a header of plain lines there is only the question of a guard to add. */
  lemma {:induction false} PlainHeader(lines: Lines, guard: string, o: Options)
    requires forall k | 0 <= k < |lines| :: !Continues(lines[k]) && Parse(lines[k]) == NotDirective
    ensures AreGroups(Tile(lines).groups)
    ensures ScanOf(Tile(lines).groups) == Scanned([], map[], LicenseEnds(Tile(lines).groups))
    ensures Fix(lines, guard, o) == AddGuard(lines, guard, o, [], LicenseEnds(Tile(lines).groups), false)
  {
    hide Tile, Parse, Directives, LineDirectives, Located, Founds, AllNamed, LicenseEnds, AddGuard, Continues;
    var gs := Tile(lines).groups;
    NoDirectives(lines);
    GroupsOfLines(lines);
    TokensOf(gs);
    NoFounds();
    assert Directives(gs) == Founds([]);
    FoundsAreEqual([], Bare(Located(gs)));
    BareLength(Located(gs));
    NothingBelow();
    assert Depth([]) == 0;
    ScanSucceedsIff(gs);
    assert Structural([]) == [] && Defines([]) == map[];
    EmptyTree(ScanOf(gs).tree);
    NothingRemoved(lines);
    hide ScanOf;
  }

  lemma NoFounds()
    ensures Founds([]) == []
  {
  }

  lemma {:induction false} NoDirectives(lines: Lines)
    requires forall k | 0 <= k < |lines| :: Parse(lines[k]) == NotDirective
    ensures LineDirectives(lines) == []
  {
    if lines != [] {
      NoDirectives(lines[..|lines| - 1]);
    }
  }

  function Singles(lines: Lines): seq<Lines> {
    seq(|lines|, k requires 0 <= k < |lines| => [lines[k]])
  }

  lemma {:induction false} SinglesAre(lines: Lines)
    requires forall k | 0 <= k < |lines| :: !Continues(lines[k])
    ensures Tile(lines) == Tiling(Singles(lines), [])
  {
    if lines != [] {
      var n := |lines| - 1;
      SinglesAre(lines[..n]);
      assert [] + [lines[n]] == [lines[n]];
      assert Singles(lines) == Singles(lines[..n]) + [[lines[n]]];
    }
  }

  /** Without a license, code anywhere calls for a guard. */
  lemma {:induction false} ContentOfAll(lines: Lines)
    ensures HasContent(lines, [], 0, 0) == !NoCode(lines)
  {
    hide NoCode;
    assert Slice(lines, 0, |lines|) == lines;
  }

  // A comment

  lemma CommentEnds(line: string)
    requires line == "/* a */"
    ensures Strip(line) == line && SkipComments(line, false) == ("", false) && !Continues(line) && Parse(line) == NotDirective
  {
    StripKeeps(line);
    assert Contains(line, 5) && FindEnd(line, 5) == 5;
    assert FindEnd(line, 3) == 5;
    assert FindEnd(line, 1) == 5;
    assert line[7..] == "";
    assert SkipComments("", false) == ("", false);
    assert SkipComments(line, true) == ("", false);
    assert line[..2] == "/*";
  }

  /** A header that is one comment is reported to lack a guard. */
  lemma CommentNeedsAGuard(o: Options)
    requires !o.inplace
    ensures OnlyComments(Tile(["/* a */"]).groups)
    ensures Fix(["/* a */"], "G", o) == Done(Fail, [MissingGuard], None)
  {
    hide Tile, Strip, SkipComments, Parse, Fix, ScanOf, NoCode, Continues, LicenseEnds, HasContent;
    var line := "/* a */";
    var lines := [line];
    CommentEnds(line);
    SinglesAre(lines);
    var gs := Singles(lines);
    assert gs == [lines];
    SingleJoined(lines);
    assert EndsComment(LineOf(gs[0]), OpenAfter(gs[..0]));
    assert CommentEndsLine(gs);
    NoCodeIff(lines);
    PlainHeader(lines, "G", o);
    LicenseIsOpen(line);
    ContentOfAll(lines);
  }

  lemma LicenseIsOpen(line: string)
    requires !Continues(line)
    ensures IsGroup([line]) && LicenseEnds([[line]]) == 0
  {
    SingleGroup(line);
    assert [[line]][..0] == [];
    assert LicenseAfter([]) == NotSeen;
    hide Strip, Text;
  }

  // An editor trailer

  lemma TrailerLines(a: string, b: string)
    requires a == "int x;" && b == "// vim: ts=4"
    ensures Strip(a) == a && Strip(b) == b && StripRight(b) == b && Parse(a) == NotDirective && Parse(b) == NotDirective
    ensures !Continues(a) && !Continues(b) && StartsWith(b, "// vim:") && !IsQuiet(a, false)
    ensures !StartsWith(a, "/*") && !StartsWith(b, "/*")
  {
    StripKeeps(a);
    StripKeeps(b);
    assert b[..7] == "// vim:";
    assert "/*"[0] == '/' && "/*"[1] == '*' && "//"[0] == '/' && "#"[0] == '#';
    assert SkipComments(a, false) == (a, false);
  }

  lemma {:induction false} NoLicense(a: string, b: string)
    requires !Continues(a) && !Continues(b) && !StartsWith(Strip(a), "/*") && !StartsWith(Strip(b), "/*")
    ensures AreGroups([[a], [b]]) && LicenseEnds([[a], [b]]) == 0
  {
    hide Strip;
    SingleGroup(a);
    SingleGroup(b);
    assert [[a], [b]][..1] == [[a]] && [[a]][..0] == [];
    assert LicenseAfter([]) == NotSeen;
    assert LicenseAfter([[a]]) == NotSeen;
  }

  lemma {:induction false} CodeFirst(a: string, b: string)
    requires !Continues(a) && !Continues(b) && Strip(a) == a && !IsQuiet(a, false)
    ensures !NoCode([a, b])
  {
    hide Tile, Strip, IsQuiet, NoCode, Continues;
    SinglesAre([a, b]);
    var gs := Singles([a, b]);
    SingleJoined([a]);
    assert gs[0] == [a] && LineOf(gs[0]) == a && !OpenAfter(gs[..0]);
    NoCodeIff([a, b]);
  }

  lemma {:induction false} TrailerAdds(a: string, b: string, x: Lines, o: Options)
    requires a == "int x;" && b == "// vim: ts=4" && o.inplace && x == ["", Opening("G"), Defining("G"), ""]
    ensures Fix([a, b], "G", o) == Done(Ok, [AddedGuard], Some(x + [a, b]))
  {
    hide Tile, Strip, StripRight, SkipComments, Parse, Fix, ScanOf, NoCode, Continues, LicenseEnds, HasContent, IsQuiet, Opening, Defining;
    TrailerLines(a, b);
    SinglesAre([a, b]);
    assert Singles([a, b]) == [[a], [b]];
    NoLicense(a, b);
    PlainHeader([a, b], "G", o);
    CodeFirst(a, b);
    ContentOfAll([a, b]);
    assert [a, b][..0] + (["", Opening("G"), Defining("G")] + [""]) + [a, b][0..] == x + [a, b];
    assert Last(x + [a, b]) == b;
  }

  lemma {:induction false} TrailerRejected(a: string, b: string, x: Lines, p: Options)
    requires a == "int x;" && b == "// vim: ts=4" && x == ["", Opening("G"), Defining("G"), ""]
    ensures Fix(x + [a, b], "G", p) == Done(Fail, [MismatchedConditionals], None)
  {
    hide Tile, Strip, StripRight, Parse, Fix, Continues, Directives, LineDirectives, Founds, Depth, Opening, Defining, IsQuiet;
    TrailerLines(a, b);
    OpeningLines("G", true);
    assert ["", Opening("G"), Defining("G")] + [""] == x;
    StepDirectives(x, a);
    StepDirectives(x + [a], b);
    assert x + [a] + [b] == x + [a, b];
    GroupsOfLines(x + [a, b]);
    var ts := [Token("ifndef", Some("G")), Token("define", Some("G"))];
    TwoFounds(ts[0], ts[1]);
    TwoDepth(ts[0], ts[1]);
    UnbalancedFails(x + [a, b], ts, "G", p);
  }

  /** The guard added to this header is never closed. */
  lemma TrailerHeader(o: Options, p: Options)
    requires o.inplace
    ensures var out := ["", "#ifndef G", "#define G", "", "int x;", "// vim: ts=4"];
            && Fix(["int x;", "// vim: ts=4"], "G", o) == Done(Ok, [AddedGuard], Some(out))
            && Fix(out, "G", p) == Done(Fail, [MismatchedConditionals], None)
  {
    hide Fix;
    var x := ["", Opening("G"), Defining("G"), ""];
    TrailerAdds("int x;", "// vim: ts=4", x, o);
    TrailerRejected("int x;", "// vim: ts=4", x, p);
    assert Opening("G") == "#ifndef G" && Defining("G") == "#define G";
    assert x + ["int x;", "// vim: ts=4"] == ["", "#ifndef G", "#define G", "", "int x;", "// vim: ts=4"];
  }

  lemma TwoFounds(s: Token, t: Token)
    ensures Founds([s, t]) == [Found(s), Found(t)]
  {
  }

  lemma TwoDepth(s: Token, t: Token)
    ensures Depth([s, t]) == Depth([s]) + Depth([t])
    ensures Depth([s]) == if IsOpener(s) then 1 else if IsCloser(s) then -1 else 0
    ensures Depth([t]) == if IsOpener(t) then 1 else if IsCloser(t) then -1 else 0
  {
    hide Depth;
    assert [s, t] == [s] + [t];
    DepthOfSum([s], [t]);
    DepthOfOne(s);
    DepthOfOne(t);
  }

  // A #pragma once in a header without content

  lemma {:induction false} NoLinesNoContent(blocks: seq<Block>, k: nat, start: nat)
    ensures !HasContent([], blocks, k, start)
    decreases |blocks| - k
  {
    assert NoCode([]);
    if k < |blocks| {
      NoLinesNoContent(blocks, k + 1, start);
      NoLinesNoContent(blocks, k + 1, blocks[k].close.end);
    }
  }

  lemma PragmaReads()
    ensures Parse("#pragma once") == Found(Token("pragma", Some("once"))) && !Continues("#pragma once")
    ensures IsOnce(Token("pragma", Some("once")))
  {
    ParseWritten("#pragma once", "pragma", "once");
    StripKeeps("once");
  }

  lemma {:induction false} PragmaLocated(x: string, t: Token)
    requires !Continues(x) && Parse(x) == Found(t)
    ensures AreGroups([[x]]) && Located([[x]]) == [Directive(t, 0, 0)] && AllNamed([[x]])
  {
    hide Parse, Text;
    SingleGroup(x);
    assert [[x]][..0] == [];
    assert Located([]) == [] && Kept([]) == [] && Flat([]) == [];
  }

  lemma {:induction false} PragmaTree(d: Directive, tree: seq<Block>, guard: string)
    requires IsOnce(d.token) && IsForest(tree) && Flatten(tree) == Structural([d])
    ensures Guards(guard, tree) == [] && Alternate(tree).None? && Pragmas(guard, tree) == [Block(d, d, [])]
  {
    hide Flatten, Guards, Alternate, Pragmas, IsForest, Filter, Strip;
    FilterOfOne(IsStructural, d);
    FilterOfOne(IsOnce, d);
    assert Bare([d]) == [d.token];
    CountOfOne(guard, d.token);
    GuardsAreCounted(guard, tree);
    PragmasAre(guard, tree);
    if Alternate(tree).Some? {
      AlternateStands(tree);
    }
  }

  /** A check complains of this header, and a run in place leaves it alone. */
  lemma {:induction false} PragmaHeader(o: Options)
    ensures Fix(["#pragma once"], "G", o) == if o.inplace then Done(Ok, [NoContent], None) else Done(Fail, [UsesPragmaOnce], None)
  {
    hide Tile, Parse, Located, Bare, Balanced, Flatten, Guards, Pragmas, Alternate, IsForest, Filter, Continues, HasContent, AllNamed, Defines,
      LicenseEnds, RepairGuard, ScanOf, IsOnce;
    var lines := ["#pragma once"];
    var t := Token("pragma", Some("once"));
    var d := Directive(t, 0, 0);
    PragmaReads();
    SinglesAre(lines);
    assert Singles(lines) == [lines];
    PragmaLocated(lines[0], t);
    FlatIsBalanced(t);
    assert Bare([d]) == [t] by {
      BareAt([d], 0);
      BareLength([d]);
    }
    ScanSucceedsIff([lines]);
    var tree := ScanOf([lines]).tree;
    PragmaTree(d, tree, "G");
    PragmaGone(lines, d);
    NoLinesNoContent(tree, 0, LicenseEnds([lines]));
  }

  lemma PragmaGone(lines: Lines, d: Directive)
    requires |lines| == 1 && d.start == d.end == 0
    ensures RemoveAll(lines, [Block(d, d, [])]) == []
  {
    assert [Block(d, d, [])][..0] == [];
  }

  // A guard that is not defined

  lemma {:induction false} ThreeLocated(x: string, s: Token, y: string, z: string, t: Token)
    requires IsDirective(x, s) && !Continues(y) && Parse(y) == NotDirective && IsDirective(z, t)
    ensures Plain([[x], [y], [z]]) && Located([[x], [y], [z]]) == [Directive(s, 0, 0), Directive(t, 2, 2)]
    ensures Flat([[x], [y], [z]]) == [x, y, z]
  {
    hide Plain, Located, Flat, Parse, Text, IsGroup;
    SingleGroup(x);
    SingleGroup(y);
    SingleGroup(z);
    NothingPlain();
    assert [] + [[x]] == [[x]] && [[x]] + [[y]] == [[x], [y]] && [[x], [y]] + [[z]] == [[x], [y], [z]];
    PlainSum([], [x]);
    PlainLocated([], [x]);
    PlainSum([[x]], [y]);
    PlainLocated([[x]], [y]);
    PlainSum([[x], [y]], [z]);
    PlainLocated([[x], [y]], [z]);
  }

  lemma NothingPlain()
    ensures Plain([]) && Located([]) == [] && Flat([]) == []
  {
  }

  /** The guard of a header with an #ifndef and an #endif around lines. */
  lemma {:induction false} GuardOfTwo(gs: seq<Lines>, s: Token, t: Token, m: nat, guard: string)
    requires AreGroups(gs) && AllNamed(gs) && Located(gs) == [Directive(s, 0, 0), Directive(t, m, m)]
    requires IsGuard(guard, s) && IsCloser(t)
    ensures ScanOf(gs).Scanned? && ScanOf(gs).defines == Defines(Located(gs))
    ensures var tree := ScanOf(gs).tree;
            && |Guards(guard, tree)| == 1 && Guards(guard, tree)[0].open == Located(gs)[0] && Guards(guard, tree)[0].close == Located(gs)[1]
            && Pragmas(guard, tree) == []
  {
    hide Located, Guards, Pragmas, Flatten, IsForest, Filter, AllNamed, Defines, LicenseEnds, ScanOf, Count, Balanced, Word;
    var ds := Located(gs);
    assert Bare(ds) == [s, t];
    NothingBelow();
    EmptyIsBalanced();
    BalancedPair(s, [], t);
    assert [s] + [] + [t] == [s, t];
    ScanSucceedsIff(gs);
    assert ds[1..1] == [] && ds[..0] == [] && ds[2..] == [] && Bare([]) == [];
    NothingCounted(guard);
    FirstIsPair(ds, ScanOf(gs).tree, guard, 0, 1);
    NoneKept(IsOnce, ds);
    NoPragmas(ds, ScanOf(gs).tree, guard);
  }

  lemma EmptyIsBalanced()
    ensures Balanced([])
  {
    NothingBelow();
  }

  lemma {:induction false} UndefinedTokens()
    ensures IsDirective("#ifndef G", Token("ifndef", Some("G"))) && IsDirective("#endif", Token("endif", None))
    ensures !Continues("int x;") && Parse("int x;") == NotDirective && StripRight("#endif") == "#endif"
    ensures Opening("G") == "#ifndef G" && Defining("G") == "#define G" && Closing("G", true) == "#endif // G"
  {
    hide Parse;
    GuardLines("G");
    CloseLine("G", false);
    TrailerLines("int x;", "// vim: ts=4");
    assert Opening("G") == "#ifndef G";
  }

  lemma {:induction false} UndefinedRepaired(x: string, y: string, z: string, o: Options)
    requires o.inplace && o.closingComment
    requires IsDirective(x, Token("ifndef", Some("G"))) && !Continues(y) && Parse(y) == NotDirective && IsDirective(z, Token("endif", None))
    ensures Fix([x, y, z], "G", o).Done?
    ensures Fix([x, y, z], "G", o).written == Some([Opening("G"), Defining("G"), Closing("G", true), z])
  {
    hide Tile, Parse, Located, Flat, ScanOf, Guards, Pragmas, Filter, Plain, Opening, Defining, Closing, Repaired, RepairGuard, AllNamed,
      IsDirective, Defines, Kept;
    var s, t, gs := Token("ifndef", Some("G")), Token("endif", None), [[x], [y], [z]];
    ThreeLocated(x, s, y, z, t);
    TileOfGroups(gs);
    PlainIsNamed(gs);
    NamedGuard("G");
    GuardOfTwo(gs, s, t, 2, "G");
    var b := Guards("G", ScanOf(gs).tree)[0];
    NothingRemoved([x, y, z]);
    RepairWrites([x, y, z], "G", o, b, Located(gs), false);
    NoneKept(DefineOf("G"), Located(gs));
    UndefinedGuardLosesALine([], x, [y], z, [], "G", o, b, "G");
    assert [] + [x] + [y] + [z] + [] == [x, y, z];
    assert [] + [Opening("G"), Defining("G")] + [y][..0] + [Closing("G", true), z] + [] == [Opening("G"), Defining("G"), Closing("G", true), z];
  }

  lemma PlainIsNamed(gs: seq<Lines>)
    requires Plain(gs)
    ensures AllNamed(gs)
  {
  }

  lemma {:induction false} TwiceClosed(z: string, p: Options)
    requires IsDirective(z, Token("endif", None))
    ensures Fix([Opening("G"), Defining("G"), Closing("G", true), z], "G", p) == Done(Fail, [MismatchedConditionals], None)
  {
    hide Tile, Parse, Fix, Continues, Directives, LineDirectives, Founds, Depth, Opening, Defining, Closing, StripRight;
    GuardLines("G");
    CloseLine("G", true);
    NoLines();
    var a, b, c := Opening("G"), Defining("G"), Closing("G", true);
    var ts := [Token("ifndef", Some("G")), Token("define", Some("G")), Token("endif", Some("// " + "G")), Token("endif", None)];
    StepDirectives([], a);
    StepDirectives([a], b);
    StepDirectives([a, b], c);
    StepDirectives([a, b, c], z);
    assert [] + [a] == [a] && [a] + [b] == [a, b] && [a, b] + [c] == [a, b, c] && [a, b, c] + [z] == [a, b, c, z];
    GroupsOfLines([a, b, c, z]);
    TwoFounds(ts[0], ts[1]);
    TwoFounds(ts[2], ts[3]);
    TwoDepth(ts[0], ts[1]);
    TwoDepth(ts[2], ts[3]);
    var us, vs := [ts[0], ts[1]], [ts[2], ts[3]];
    assert ts == us + vs;
    DepthOfSum(us, vs);
    FoundsOfTwo(us, vs);
    UnbalancedFails([a, b, c, z], ts, "G", p);
  }

  lemma FoundsOfTwo(a: seq<Token>, b: seq<Token>)
    ensures Founds(a + b) == Founds(a) + Founds(b)
  {
  }

  /** This header loses its only line, and the old #endif stays. */
  lemma UndefinedHeader(p: Options)
    ensures var first := Fix(["#ifndef G", "int x;", "#endif"], "G", Options(true, true));
            first.Done? && first.written == Some(["#ifndef G", "#define G", "#endif // G", "#endif"])
    ensures Fix(["#ifndef G", "#define G", "#endif // G", "#endif"], "G", p) == Done(Fail, [MismatchedConditionals], None)
  {
    hide Fix, IsDirective, Parse;
    UndefinedTokens();
    UndefinedRepaired("#ifndef G", "int x;", "#endif", Options(true, true));
    TwiceClosed("#endif", p);
  }

  // A license

  lemma LicenseLines(a: string, b: string, c: string, x: string)
    requires a == "/*" && b == "* License" && c == "*/" && x == "int x;"
    ensures Strip(a) == a && Strip(b) == b && Strip(c) == c && Strip("") == "" && Strip(x) == x
    ensures Parse(a) == NotDirective && Parse(b) == NotDirective && Parse(c) == NotDirective && Parse("") == NotDirective
    ensures !Continues(a) && !Continues(b) && !Continues(c) && !Continues("")
    ensures StartsWith(a, "/*") && StartsWith(b, "*") && StartsWith(c, "*") && !StartsWith("", "*")
  {
    StripKeeps(a);
    StripKeeps(b);
    StripKeeps(c);
    StripKeeps(x);
    assert b[..1] == "*" && c[..1] == "*";
  }

  lemma {:induction false} LicenseIsThere(a: string, b: string, c: string, d: string, x: string)
    requires !Continues(a) && !Continues(b) && !Continues(c) && !Continues(d) && !Continues(x)
    requires StartsWith(Strip(a), "/*") && StartsWith(Strip(b), "*") && StartsWith(Strip(c), "*") && !StartsWith(Strip(d), "*")
    ensures AreGroups([[a], [b], [c], [d], [x]]) && LicenseEnds([[a], [b], [c], [d], [x]]) == 3
  {
    hide Strip, StartsWith, LicenseEnds, Text, Continues, Flat;
    SingleGroup(a);
    SingleGroup(b);
    SingleGroup(c);
    SingleGroup(d);
    SingleGroup(x);
    var gs := [[a], [b], [c], [d], [x]];
    assert IsLicense(gs, 0, 3);
    ThreeLines(a, b, c);
    assert gs[..3] == [[a], [b], [c]];
    LicenseEndsAt(gs, 3);
  }

  lemma ThreeLines(a: string, b: string, c: string)
    ensures Flat([[a], [b], [c]]) == [a, b, c]
  {
    hide Flat;
    NothingTiled();
    FlatStep([], [a]);
    FlatStep([[a]], [b]);
    FlatStep([[a], [b]], [c]);
    assert [] + [[a]] == [[a]] && [[a]] + [[b]] == [[a], [b]] && [[a], [b]] + [[c]] == [[a], [b], [c]];
  }

  lemma {:induction false} CodeSecond(x: string)
    requires !Continues(x) && Strip(x) == x && !IsQuiet(x, false)
    ensures !NoCode(["", x])
  {
    hide Tile, Strip, IsQuiet, NoCode, Continues;
    BlankLine();
    SinglesAre(["", x]);
    var gs := Singles(["", x]);
    SingleJoined([x]);
    SingleJoined([""]);
    BlankStripped();
    assert gs[0] == [""] && gs[1] == [x] && gs[..1] == [[""]] && [[""]][..0] == [];
    assert LineOf(gs[1]) == x && !OpenAfter(gs[..1]);
    NoCodeIff(["", x]);
  }

  lemma BlankStripped()
    ensures Strip("") == ""
  {
  }

  lemma {:induction false} LicenseContent(lines: Lines, x: string)
    requires |lines| == 5 && lines[3..] == ["", x] && !Continues(x) && Strip(x) == x && !IsQuiet(x, false)
    ensures HasContent(lines, [], 0, 3)
  {
    hide NoCode, Strip, IsQuiet, Continues;
    CodeSecond(x);
    assert Slice(lines, 3, 5) == ["", x];
  }

  /** The guard is added below the license and closed at the end. */
  lemma {:induction false} LicenseHeader(o: Options)
    requires o.inplace
    ensures Fix(["/*", "* License", "*/", "", "int x;"], "G", o) ==
            Done(Ok, [AddedGuard], Some(["/*", "* License", "*/", "", "#ifndef G", "#define G", "", "int x;", "",
                                         if o.closingComment then "#endif // G" else "#endif", ""]))
  {
    hide Tile, Strip, StripRight, SkipComments, Parse, Fix, ScanOf, NoCode, Continues, LicenseEnds, HasContent, IsQuiet, StartsWith;
    var a, b, c, x := "/*", "* License", "*/", "int x;";
    var lines := [a, b, c, "", x];
    LicenseLines(a, b, c, x);
    TrailerLines(x, "// vim: ts=4");
    SinglesAre(lines);
    assert Singles(lines) == [[a], [b], [c], [""], [x]];
    LicenseIsThere(a, b, c, "", x);
    PlainHeader(lines, "G", o);
    LicenseContent(lines, x);
    LicenseInserted(lines, o.closingComment);
  }

  lemma LicenseInserted(lines: Lines, comment: bool)
    requires lines == ["/*", "* License", "*/", "", "int x;"]
    ensures Inserted(lines, "G", 3, comment) ==
            ["/*", "* License", "*/", "", "#ifndef G", "#define G", "", "int x;", "", if comment then "#endif // G" else "#endif", ""]
  {
    hide Strip;
    BlankStripped();
    StripKeeps("int x;");
    assert Opening("G") == "#ifndef G" && Defining("G") == "#define G" && Closing("G", true) == "#endif // G";
    assert lines[..3] == ["/*", "* License", "*/"] && lines[3..] == ["", "int x;"] && lines[3] == "";
    var started := Opened(lines, "G", 3);
    assert started == ["/*", "* License", "*/", "", "#ifndef G", "#define G", "", "int x;"];
    assert "// vim:"[0] == '/' && "int x;"[0] == 'i';
    assert Last(started) == "int x;";
  }

  // An inner conditional

  lemma InnerTokens()
    ensures IsDirective("#ifndef G", Token("ifndef", Some("G"))) && IsDirective("#define G", Token("define", Some("G")))
    ensures IsDirective("#ifdef X", Token("ifdef", Some("X"))) && IsDirective("#endif", Token("endif", None))
  {
    hide Parse;
    GuardLines("G");
    CloseLine("G", false);
    assert Opening("G") == "#ifndef G" && Defining("G") == "#define G" && Closing("G", false) == "#endif";
    ParseWritten("#ifdef X", "ifdef", "X");
    SolidLine("#ifdef ", "X");
    assert "#ifdef " + "X" == "#ifdef X";
  }

  lemma {:induction false} FiveDirectives(a: string, b: string, c: string, d: string, e: string, ts: seq<Token>)
    requires |ts| == 5 && IsDirective(a, ts[0]) && IsDirective(b, ts[1]) && IsDirective(c, ts[2]) && IsDirective(d, ts[3]) && IsDirective(e, ts[4])
    ensures AreGroups(Tile([a, b, c, d, e]).groups) && Directives(Tile([a, b, c, d, e]).groups) == Founds(ts)
  {
    hide Tile, Parse, Continues, Directives, LineDirectives, StripRight;
    NoLines();
    StepDirectives([], a);
    StepDirectives([a], b);
    StepDirectives([a, b], c);
    StepDirectives([a, b, c], d);
    StepDirectives([a, b, c, d], e);
    assert [] + [a] == [a] && [a] + [b] == [a, b] && [a, b] + [c] == [a, b, c] && [a, b, c] + [d] == [a, b, c, d];
    assert [a, b, c, d] + [e] == [a, b, c, d, e];
    GroupsOfLines([a, b, c, d, e]);
    assert Founds(ts) == [Found(ts[0]), Found(ts[1]), Found(ts[2]), Found(ts[3]), Found(ts[4])];
  }

  lemma {:induction false} NestedBalance(ts: seq<Token>)
    requires |ts| == 5 && IsOpener(ts[0]) && ts[1].kind == "define" && IsOpener(ts[2]) && IsCloser(ts[3]) && IsCloser(ts[4])
    ensures Balanced(ts) && TokenPair(ts, 0, 4)
  {
    hide Balanced, IsOpener, IsCloser;
    EmptyIsBalanced();
    BalancedPair(ts[2], [], ts[3]);
    assert !IsOpener(ts[1]) && !IsCloser(ts[1]) by {
      DefineIsFlat(ts[1]);
    }
    FlatIsBalanced(ts[1]);
    BalancedSum([ts[1]], [ts[2]] + [] + [ts[3]]);
    assert ts[1..4] == [ts[1]] + ([ts[2]] + [] + [ts[3]]);
    BalancedPair(ts[0], ts[1..4], ts[4]);
    assert ts == [ts[0]] + ts[1..4] + [ts[4]];
  }

  lemma DefineIsFlat(t: Token)
    requires t.kind == "define"
    ensures !IsOpener(t) && !IsCloser(t)
  {
  }

  /** A correct guard with a conditional inside. */
  lemma {:induction false} InnerIfdefHeader(o: Options)
    requires !o.closingComment
    ensures var lines := ["#ifndef G", "#define G", "#ifdef X", "#endif", "#endif"];
            Fix(lines, "G", o) == Done(Ok, [FoundCorrectGuard], if o.inplace then Some(lines) else None)
  {
    hide Tile, Parse, Fix, Directives, Founds, Balanced, Count, Word, IsDirective;
    var ts := [Token("ifndef", Some("G")), Token("define", Some("G")), Token("ifdef", Some("X")), Token("endif", None), Token("endif", None)];
    InnerTokens();
    FiveDirectives("#ifndef G", "#define G", "#ifdef X", "#endif", "#endif", ts);
    NestedBalance(ts);
    DefineReadsBack("G");
    NameIsDefined("G");
    assert ts[..0] == [] && ts[5..] == [] && Bare([]) == [];
    NothingCounted("G");
    assert IsDefine("G", ts[1]);
    CorrectIsSettled(["#ifndef G", "#define G", "#ifdef X", "#endif", "#endif"], ts, "G", o, 0, 4);
  }
}
