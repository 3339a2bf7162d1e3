/** The scan of a header: its directives with coordinates that already allow for
    the #pragma once lines to be removed, and where its license ends. */
module DirectiveScan {
  import opened Common
  import opened HeaderText
  import opened Splicing
  import opened Conditionals
  import opened GuardSearch

  predicate IsOnceGroup(g: Lines)
    requires IsGroup(g)
  {
    Parse(Text(g)).Found? && IsOnce(Parse(Text(g)).token)
  }

  /** The groups without the #pragma once directives. */
  function Kept(gs: seq<Lines>): (ks: seq<Lines>)
    requires AreGroups(gs)
    ensures AreGroups(ks)
  {
    if gs == [] then []
    else Kept(gs[..|gs| - 1]) + (if IsOnceGroup(gs[|gs| - 1]) then [] else [gs[|gs| - 1]])
  }

  /** The directives, each at the lines it will span after that removal. */
  function Located(gs: seq<Lines>): seq<Directive>
    requires AreGroups(gs)
  {
    if gs == [] then []
    else
      var front, g := gs[..|gs| - 1], gs[|gs| - 1];
      var at := |Flat(Kept(front))|;
      match Parse(Text(g))
      case Found(t) => Located(front) + [Directive(t, at, at + |g| - 1)]
      case _ => Located(front)
  }

  datatype License = NotSeen | Reading | Seen(ends: nat)

  /** The license is the first block comment; it ends at the first line after
      that comment's lines. */
  function NextLicense(before: License, line: string, end: nat): License {
    if before == NotSeen && StartsWith(line, "/*") then Reading
    else if before == Reading && !StartsWith(line, "*") then Seen(end)
    else before
  }

  function LicenseAfter(gs: seq<Lines>): License
    requires AreGroups(gs)
  {
    if gs == [] then NotSeen
    else NextLicense(LicenseAfter(gs[..|gs| - 1]), Strip(Text(gs[|gs| - 1])), |Flat(gs[..|gs| - 1])| + |gs[|gs| - 1]| - 1)
  }

  function EndOf(license: License): nat {
    match license
    case Seen(ends) => ends
    case _ => 0
  }

  function LicenseEnds(gs: seq<Lines>): nat
    requires AreGroups(gs)
  {
    EndOf(LicenseAfter(gs))
  }

  predicate IsDefine(name: string, t: Token) {
    t.kind == "define" && t.args.Some? && Word(t.args.value) == name
  }

  function AddDefine(m: map<string, seq<Directive>>, d: Directive): map<string, seq<Directive>> {
    if d.token.kind != "define" || d.token.args.None? then m
    else
      var name := Word(d.token.args.value);
      m[name := (if name in m then m[name] else []) + [d]]
  }

  /** The definitions of each name, in the order of the file. */
  function Defines(ds: seq<Directive>): map<string, seq<Directive>> {
    if ds == [] then map[] else AddDefine(Defines(ds[..|ds| - 1]), ds[|ds| - 1])
  }

  datatype Progress = Going | Crashed | Mismatched

  /** How the scan fares: a lone # is not survived, and an #endif with nothing
      to close ends the scan. */
  function ProgressAfter(gs: seq<Lines>): Progress
    requires AreGroups(gs)
  {
    if gs == [] then Going
    else
      var before := ProgressAfter(gs[..|gs| - 1]);
      if before != Going then before
      else if Parse(Text(gs[|gs| - 1])).Nameless? then Crashed
      else if ParseAll(Located(gs)).Mismatch? then Mismatched
      else Going
  }

  datatype Scan =
    | ScanCrash
    | ScanMismatch
    | Scanned(tree: seq<Block>, defines: map<string, seq<Directive>>, licenseEnds: nat)

  function ScanOf(gs: seq<Lines>): Scan
    requires AreGroups(gs)
  {
    match ProgressAfter(gs)
    case Crashed => ScanCrash
    case Mismatched => ScanMismatch
    case Going =>
      match Tree(ParseAll(Located(gs)))
      case None => ScanMismatch
      case Some(tree) => Scanned(tree, Defines(Located(gs)), LicenseEnds(gs))
  }

  lemma {:induction false} KeptStep(gs: seq<Lines>, k: nat)
    requires AreGroups(gs) && k < |gs|
    ensures Flat(gs[..k + 1]) == Flat(gs[..k]) + gs[k]
    ensures Kept(gs[..k + 1]) == Kept(gs[..k]) + (if IsOnceGroup(gs[k]) then [] else [gs[k]])
  {
    hide Parse, Text, IsGroup;
    assert gs[..k + 1][..k] == gs[..k];
  }

  lemma {:induction false} LocatedStep(gs: seq<Lines>, k: nat)
    requires AreGroups(gs) && k < |gs|
    ensures Located(gs[..k + 1]) == Located(gs[..k]) + (
                match Parse(Text(gs[k]))
                case Found(t) => [Directive(t, |Flat(Kept(gs[..k]))|, |Flat(Kept(gs[..k]))| + |gs[k]| - 1)]
                case _ => [])
  {
    hide Parse, Text, IsGroup, Kept, Flat;
    assert gs[..k + 1][..k] == gs[..k];
  }

  lemma {:induction false} ProgressStays(gs: seq<Lines>, k: nat)
    requires AreGroups(gs) && k <= |gs| && ProgressAfter(gs[..k]) != Going
    ensures ProgressAfter(gs) == ProgressAfter(gs[..k])
    decreases |gs| - k
  {
    if k < |gs| {
      assert gs[..k + 1][..k] == gs[..k];
      ProgressStays(gs, k + 1);
    } else {
      assert gs[..k] == gs;
    }
  }

  lemma {:induction false} AppendKept(ks: seq<Lines>, g: Lines, once: bool)
    ensures |Flat(ks + (if once then [] else [g]))| == |Flat(ks)| + (if once then 0 else |g|)
  {
    if once {
      assert ks + [] == ks;
    } else {
      FlatStep(ks, g);
    }
  }

  /** One directive: #endif closes the last open conditional, #pragma once is a
      block of its own, and an opener starts a new level. */
  method AcceptDirective(ifStack0: seq<Directive>, blocks0: seq<seq<Block>>, d: Directive)
    returns (ok: bool, ifStack: seq<Directive>, blocks: seq<seq<Block>>)
    requires |blocks0| == |ifStack0| + 1
    ensures ok <==> Accept(Parser(ifStack0, blocks0), d).Parser?
    ensures ok ==> |blocks| == |ifStack| + 1 && Parser(ifStack, blocks) == Accept(Parser(ifStack0, blocks0), d)
  {
    ifStack, blocks := ifStack0, blocks0;
    if d.token.kind == "endif" {
      if ifStack == [] {
        return false, ifStack, blocks;
      }
      var n := |ifStack|;
      var block := Block(ifStack[n - 1], d, blocks[n]);
      ifStack := ifStack[..n - 1];
      blocks := Append(blocks[..n], block);
    } else if d.token.kind == "pragma" {
      if d.token.args.None? || Strip(d.token.args.value) != "once" {
        return true, ifStack, blocks;
      }
      blocks := Append(blocks, Block(d, d, []));
    } else if IsOpener(d.token) {
      blocks := blocks + [[]];
      ifStack := ifStack + [d];
    }
    ok := true;
  }

  /** The variables of the scan after k groups. */
  ghost predicate ScannedTo(gs: seq<Lines>, k: nat, offset: nat, state: License, p: Parser, m: map<string, seq<Directive>>)
    requires AreGroups(gs) && k <= |gs|
  {
    && offset + |Flat(Kept(gs[..k]))| == |Flat(gs[..k])|
    && state == LicenseAfter(gs[..k])
    && p.Parser? && p == ParseAll(Located(gs[..k]))
    && m == Defines(Located(gs[..k]))
    && ProgressAfter(gs[..k]) == Going
  }

  lemma {:induction false} ScanSkips(gs: seq<Lines>, k: nat, offset: nat, state: License, p: Parser, m: map<string, seq<Directive>>)
    requires AreGroups(gs) && k < |gs| && ScannedTo(gs, k, offset, state, p, m)
    requires Parse(Text(gs[k])) == NotDirective
    ensures ScannedTo(gs, k + 1, offset, NextLicense(state, Strip(Text(gs[k])), |Flat(gs[..k])| + |gs[k]| - 1), p, m)
  {
    hide Flat, Kept, Located, LicenseAfter, ProgressAfter, ParseAll, Defines, Parse, Text, Strip, NextLicense;
    KeptStep(gs, k);
    LocatedStep(gs, k);
    AppendKept(Kept(gs[..k]), gs[k], false);
    LicenseStep(gs, k);
    ProgressStep(gs, k);
    assert Located(gs[..k + 1]) == Located(gs[..k]);
  }

  lemma {:induction false} ScanTakes(gs: seq<Lines>, k: nat, offset: nat, state: License, p: Parser, m: map<string, seq<Directive>>, d: Directive)
    requires AreGroups(gs) && k < |gs| && ScannedTo(gs, k, offset, state, p, m)
    requires offset <= |Flat(gs[..k])|
    requires Parse(Text(gs[k])) == Found(d.token) && d.start == |Flat(gs[..k])| - offset && d.end + 1 == d.start + |gs[k]|
    ensures Accept(p, d).Parser? ==>
              ScannedTo(gs, k + 1, offset + (if IsOnce(d.token) then |gs[k]| else 0),
                        NextLicense(state, Strip(Text(gs[k])), |Flat(gs[..k])| + |gs[k]| - 1), Accept(p, d), AddDefine(m, d))
    ensures Accept(p, d).Mismatch? ==> ProgressAfter(gs[..k + 1]) == Mismatched
  {
    hide Flat, Kept, Located, LicenseAfter, ProgressAfter, ParseAll, Defines, Parse, Text, Strip, NextLicense, Accept, AddDefine, IsOnce;
    KeptStep(gs, k);
    LocatedStep(gs, k);
    AppendKept(Kept(gs[..k]), gs[k], IsOnce(d.token));
    LicenseStep(gs, k);
    ProgressStep(gs, k);
    ScanStep(Located(gs[..k]), d);
    assert Located(gs[..k + 1]) == Located(gs[..k]) + [d];
  }

  lemma {:induction false} ScanStarts(gs: seq<Lines>)
    requires AreGroups(gs)
    ensures ScannedTo(gs, 0, 0, NotSeen, Parser([], [[]]), map[])
  {
    assert gs[..0] == [];
  }

  lemma {:induction false} ScanEnds(gs: seq<Lines>, offset: nat, state: License, p: Parser, m: map<string, seq<Directive>>)
    requires AreGroups(gs) && ScannedTo(gs, |gs|, offset, state, p, m)
    ensures ScanOf(gs) == if |p.blocks| != 1 then ScanMismatch else Scanned(p.blocks[0], m, EndOf(state))
  {
    assert gs[..|gs|] == gs;
  }

  method ScanDirectives(lines: Lines) returns (scan: Scan)
    requires AreLines(lines)
    ensures AreGroups(Tile(lines).groups) && scan == ScanOf(Tile(lines).groups)
  {
    hide *;
    TileCovers(lines);
    ghost var gs := Tile(lines).groups;
    var state := NotSeen;
    var ifStack: seq<Directive>, blocks: seq<seq<Block>> := [], [[]];
    var defines: map<string, seq<Directive>> := map[];
    var offset := 0;
    var logical := Continuations(lines);
    ScanStarts(gs);
    for k := 0 to |logical|
      invariant |blocks| == |ifStack| + 1
      invariant ScannedTo(gs, k, offset, state, Parser(ifStack, blocks), defines)
    {
      var start, end, line := logical[k].start, logical[k].end, Strip(RemoveSplices(logical[k].combined));
      GroupSpan(lines, gs, k, logical[k]);
      ScannedOffset(gs, k, offset, state, Parser(ifStack, blocks), defines);
      if !StartsWith(line, "#") {
        ScanSkips(gs, k, offset, state, Parser(ifStack, blocks), defines);
        state := NextLicense(state, line, end);
        continue;
      }
      var parsed := ParseStripped(line);
      if parsed.Nameless? {
        ScanCrashes(gs, k, offset, state, Parser(ifStack, blocks), defines);
        return ScanCrash;
      }
      var d := Directive(parsed.token, start - offset, end - offset);
      ScanTakes(gs, k, offset, state, Parser(ifStack, blocks), defines, d);
      var ok;
      ok, ifStack, blocks := AcceptDirective(ifStack, blocks, d);
      if !ok {
        ScanFails(gs, k + 1);
        return ScanMismatch;
      }
      if IsOnce(d.token) {
        offset := offset + end - start + 1;
      }
      state := NextLicense(state, line, end);
      defines := AddDefine(defines, d);
    }
    ScanEnds(gs, offset, state, Parser(ifStack, blocks), defines);
    if |blocks| != 1 {
      return ScanMismatch;
    }
    scan := Scanned(blocks[0], defines, EndOf(state));
  }

  lemma {:induction false} ScannedOffset(gs: seq<Lines>, k: nat, offset: nat, state: License, p: Parser, m: map<string, seq<Directive>>)
    requires AreGroups(gs) && k <= |gs| && ScannedTo(gs, k, offset, state, p, m)
    ensures offset <= |Flat(gs[..k])|
  {
  }

  lemma {:induction false} ScanCrashes(gs: seq<Lines>, k: nat, offset: nat, state: License, p: Parser, m: map<string, seq<Directive>>)
    requires AreGroups(gs) && k < |gs| && ScannedTo(gs, k, offset, state, p, m) && Parse(Text(gs[k])).Nameless?
    ensures ScanOf(gs) == ScanCrash
  {
    ProgressStep(gs, k);
    ProgressStays(gs, k + 1);
  }

  lemma {:induction false} ScanFails(gs: seq<Lines>, k: nat)
    requires AreGroups(gs) && k <= |gs| && ProgressAfter(gs[..k]) == Mismatched
    ensures ScanOf(gs) == ScanMismatch
  {
    ProgressStays(gs, k);
  }

  lemma {:induction false} GroupSpan(lines: Lines, gs: seq<Lines>, k: nat, l: Logical)
    requires AreLines(lines) && gs == Tile(lines).groups && k < |gs| && Spans(l, gs, k)
    ensures l.start == |Flat(gs[..k])| && l.start <= l.end && l.end + 1 == l.start + |gs[k]|
    ensures AreGroups(gs) && RemoveSplices(l.combined) == Text(gs[k])
    ensures Parse(Text(gs[k])) == ParseStripped(Strip(Text(gs[k])))
    ensures Parse(Text(gs[k])) == NotDirective <==> !StartsWith(Strip(Text(gs[k])), "#")
  {
    GroupText(lines, gs, k);
    ParseIs(Text(gs[k]));
  }

  lemma {:induction false} ParseIs(text: string)
    ensures Parse(text) == ParseStripped(Strip(text))
    ensures Parse(text) == NotDirective <==> !StartsWith(Strip(text), "#")
    ensures StartsWith(Strip(text), "/*") ==> !StartsWith(Strip(text), "#")
  {
    if StartsWith(Strip(text), "/*") {
      assert Strip(text)[0] == "/*"[0];
    }
  }

  lemma {:induction false} GroupText(lines: Lines, gs: seq<Lines>, k: nat)
    requires AreLines(lines) && gs == Tile(lines).groups && k < |gs|
    ensures AreGroups(gs) && RemoveSplices(Joined(gs[k])) == Text(gs[k])
  {
    TileCovers(lines);
    hide Tile, Flat, OneLine;
    assert forall i | 0 <= i < |Flat(gs)| :: Flat(gs)[i] == lines[i];
    GroupsAreLines(gs, k);
    SplicingIsTextual(gs[k]);
  }

  lemma {:induction false} GroupsAreLines(gs: seq<Lines>, k: nat)
    requires k < |gs| && AreLines(Flat(gs))
    ensures AreLines(gs[k])
    decreases |gs|
  {
    var n := |gs| - 1;
    assert Flat(gs) == Flat(gs[..n]) + gs[n];
    if k < n {
      assert forall i | 0 <= i < |Flat(gs[..n])| :: Flat(gs[..n])[i] == Flat(gs)[i];
      GroupsAreLines(gs[..n], k);
    } else {
      assert forall i | 0 <= i < |gs[n]| :: gs[n][i] == Flat(gs)[|Flat(gs[..n])| + i];
    }
  }

  lemma {:induction false} LicenseStep(gs: seq<Lines>, k: nat)
    requires AreGroups(gs) && k < |gs|
    ensures LicenseAfter(gs[..k + 1]) ==
            NextLicense(LicenseAfter(gs[..k]), Strip(Text(gs[k])), |Flat(gs[..k])| + |gs[k]| - 1)
  {
    assert gs[..k + 1][..k] == gs[..k];
  }

  lemma {:induction false} ProgressStep(gs: seq<Lines>, k: nat)
    requires AreGroups(gs) && k < |gs| && ProgressAfter(gs[..k]) == Going
    ensures ProgressAfter(gs[..k + 1]) ==
            if Parse(Text(gs[k])).Nameless? then Crashed
            else if ParseAll(Located(gs[..k + 1])).Mismatch? then Mismatched
            else Going
  {
    assert gs[..k + 1][..k] == gs[..k];
  }

  lemma {:induction false} ScanStep(ds: seq<Directive>, d: Directive)
    ensures ParseAll(ds + [d]) == Accept(ParseAll(ds), d)
    ensures Defines(ds + [d]) ==
            AddDefine(Defines(ds), d)
  {
    assert (ds + [d])[..|ds|] == ds;
  }
}
