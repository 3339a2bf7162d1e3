/** Which lines of a header open and close conditionals. */
module ConditionalWords {
  import opened Common
  import opened HeaderText
  import opened Splicing
  import opened Conditionals
  import opened GuardSearch
  import opened DirectiveScan
  import opened PragmaRemoval
  import opened GuardSettled
  import opened GuardEdits
  import opened GuardIdempotence

  lemma {:induction false} BlanksStrip(blanks: string, s: string)
    requires (forall i | 0 <= i < |blanks| :: IsSpace(blanks[i])) && s != "" && !IsSpace(s[0])
    ensures StripLeft(blanks + s) == s
  {
    if blanks == "" {
      assert blanks + s == s;
    } else {
      assert (blanks + s)[1..] == blanks[1..] + s;
      BlanksStrip(blanks[1..], s);
    }
  }

  /** How a directive reads: blanks may come before and after the #. */
  lemma {:induction false} DirectiveReads(line: string, blanks: string, word: string, rest: string)
    requires Strip(line) == "#" + blanks + word + rest && forall i | 0 <= i < |blanks| :: IsSpace(blanks[i])
    requires word != "" && (forall i | 0 <= i < |word| :: !IsSpace(word[i])) && (rest == "" || IsSpace(rest[0]))
    ensures Parse(line) == Found(Token(word, if StripLeft(rest) == "" then None else Some(StripLeft(rest))))
  {
    hide Strip, StripLeft, Word, IsSpace;
    var text, body := Strip(line), word + rest;
    assert body[0] == word[0];
    assert text[1..] == blanks + body;
    BlanksStrip(blanks, body);
    WordOfSum(word, rest);
    assert body[|word|..] == rest;
  }

  // One line more

  lemma {:induction false} ScansAs(lines: Lines, ts: seq<Token>)
    requires AreGroups(Tile(lines).groups) && Directives(Tile(lines).groups) == Founds(ts)
    ensures ScanOf(Tile(lines).groups).Scanned? <==> Balanced(ts)
    ensures Bare(Located(Tile(lines).groups)) == ts
    ensures ScanOf(Tile(lines).groups).Scanned? ==>
              && IsForest(ScanOf(Tile(lines).groups).tree)
              && Flatten(ScanOf(Tile(lines).groups).tree) == Structural(Located(Tile(lines).groups))
  {
    hide Tile, Located, Directives, Bare, Founds, Balanced, AllNamed, Flatten, Filter, IsForest, ScanOf, Defines, LicenseEnds;
    TokensOf(Tile(lines).groups);
    FoundsAreEqual(ts, Bare(Located(Tile(lines).groups)));
    ScanSucceedsIff(Tile(lines).groups);
  }

  lemma {:induction false} ScannedTokens(lines: Lines) returns (ts: seq<Token>)
    requires AreGroups(Tile(lines).groups) && ScanOf(Tile(lines).groups).Scanned?
    ensures Directives(Tile(lines).groups) == Founds(ts) && Balanced(ts)
  {
    hide Tile, Located, Directives, Bare, Founds, Balanced, AllNamed, Flatten, Filter, IsForest, ScanOf, Defines, LicenseEnds;
    ts := Bare(Located(Tile(lines).groups));
    ScanSucceedsIff(Tile(lines).groups);
    TokensOf(Tile(lines).groups);
  }

  lemma {:induction false} OneMoreDepth(a: seq<Token>, t: Token, b: seq<Token>)
    ensures Depth(a + [t] + b) == Depth(a + b) + (if IsOpener(t) then 1 else if IsCloser(t) then -1 else 0)
  {
    hide Depth, IsOpener, IsCloser;
    DepthOfSum(a + [t], b);
    DepthOfSum(a, [t]);
    DepthOfSum(a, b);
    DepthOfOne(t);
  }

  lemma FoundsWith(a: seq<Token>, t: Token, b: seq<Token>)
    ensures Founds(a + [t] + b) == Founds(a) + [Found(t)] + Founds(b)
  {
  }

  lemma {:induction false} LineBetween(a: Lines, line: string, b: Lines, t: Token)
    requires Tile(a).pending == [] && !Continues(line) && Parse(line) == Found(t)
    ensures AreGroups(Tile(a).groups) && AreGroups(Tile(b).groups) && AreGroups(Tile(a + [line] + b).groups)
    ensures Directives(Tile(a + [line] + b).groups) == Directives(Tile(a).groups) + [Found(t)] + Directives(Tile(b).groups)
    ensures Tile(a + [line] + b).pending == Tile(b).pending
  {
    hide Tile, Parse, Directives, Continues;
    TileCovers(a);
    LineAdded(a, line);
    DirectivesJoin(a + [line], b);
  }

  /** A directive put between the lines of a header that scans leaves one that
      scans exactly if it does not open or close a conditional: if its word is
      none of these four. */
  lemma {:induction false} LineScansIff(a: Lines, line: string, t: Token, b: Lines)
    requires Tile(a).pending == [] && !Continues(line) && Parse(line) == Found(t)
    requires AreGroups(Tile(a + b).groups) && ScanOf(Tile(a + b).groups).Scanned?
    ensures AreGroups(Tile(a + [line] + b).groups)
    ensures ScanOf(Tile(a + [line] + b).groups).Scanned? <==> t.kind !in ["if", "ifdef", "ifndef", "endif"]
  {
    hide Tile, Parse, Directives, Continues, ScanOf, Founds, Balanced, Located, Flatten, Filter, IsForest, Bare;
    LineBetween(a, line, b, t);
    DirectivesJoin(a, b);
    var ts := ScannedTokens(a + b);
    var p := |Directives(Tile(a).groups)|;
    FoundsSplit(ts, Directives(Tile(a).groups), Directives(Tile(b).groups));
    var us := ts[..p] + [t] + ts[p..];
    FoundsWith(ts[..p], t, ts[p..]);
    ScansAs(a + [line] + b, us);
    assert ts[..p] + ts[p..] == ts;
    OneMoreDepth(ts[..p], t, ts[p..]);
    BalancedHasNoDepth(ts);
    BalancedHasNoDepth(us);
    if !IsOpener(t) && !IsCloser(t) {
      BalancedInsert(ts, p, t);
    }
  }

  lemma BalancedHasNoDepth(ts: seq<Token>)
    ensures Balanced(ts) ==> Depth(ts) == 0
  {
  }

  // A block

  lemma {:induction false} FlattenFirst(f: seq<Block>)
    requires f != []
    ensures Flatten(f) == FlattenBlock(f[0]) + Flatten(f[1..])
  {
    hide FlattenBlock;
    var n := |f| - 1;
    if n == 0 {
      assert f[..0] == [] && f[1..] == [];
    } else {
      FlattenFirst(f[..n]);
      assert f[..n][1..] == f[1..][..n - 1];
    }
  }

  lemma {:induction false} EmptyTree(f: seq<Block>)
    requires Flatten(f) == []
    ensures f == []
  {
  }

  lemma {:induction false} OneBlock(tree: seq<Block>, open: Directive, mid: seq<Directive>, close: Directive)
    requires IsForest(tree) && Flatten(tree) == [open] + mid + [close]
    requires IsOpener(open.token) && IsCloser(close.token) && Balanced(Bare(mid))
    ensures |tree| == 1 && tree[0].open == open && tree[0].close == close && Flatten(tree[0].children) == mid
  {
    hide Balanced, Flatten;
    NoTree();
    FlattenFirst(tree);
    var b, whole := tree[0], [open] + mid + [close];
    var block := FlattenBlock(b);
    assert whole[0] == block[0] == b.open;
    var n := Flatten(b.children);
    ForestIsBalanced(b.children);
    var ts := Bare(whole);
    assert ts[1..1 + |mid|] == Bare(mid);
    assert forall k | 0 <= k < |block| :: whole[k] == block[k];
    assert ts[1..1 + |n|] == Bare(n);
    assert ts[1 + |n|] == b.close.token;
    MatchIsUnique(ts, 1, Bare(mid), Bare(n));
    assert |mid| == |Bare(mid)| && |n| == |Bare(n)|;
    assert whole == block;
    EmptyTree(tree[1..]);
    assert n == block[1..|block| - 1] && mid == whole[1..|whole| - 1];
  }

  lemma NoTree()
    ensures Flatten([]) == []
  {
  }

  lemma {:induction false} SameFilter(keep: Token -> bool, a: seq<Directive>, b: seq<Directive>)
    requires Bare(a) == Bare(b)
    ensures Bare(Filter(keep, a)) == Bare(Filter(keep, b))
  {
    assert |Bare(a)| == |a| && |Bare(b)| == |b|;
    if a != [] {
      var n := |a| - 1;
      BareSlices(a, n, n);
      BareSlices(b, n, n);
      assert Bare(a)[n] == a[n].token && Bare(b)[n] == b[n].token;
      SameFilter(keep, a[..n], b[..n]);
      BareOfSum(Filter(keep, a[..n]), if keep(a[n].token) then [a[n]] else []);
      BareOfSum(Filter(keep, b[..n]), if keep(b[n].token) then [b[n]] else []);
    }
  }

  lemma {:induction false} StructuralParts(ds: seq<Directive>, n: nat)
    requires |ds| == n + 2 && IsOpener(ds[0].token) && IsCloser(ds[n + 1].token)
    ensures Structural(ds) == [ds[0]] + Structural(ds[1..n + 1]) + [ds[n + 1]]
  {
    hide Filter;
    assert ds == [ds[0]] + ds[1..n + 1] + [ds[n + 1]];
    FilterOfSum(IsStructural, [ds[0]] + ds[1..n + 1], [ds[n + 1]]);
    FilterOfSum(IsStructural, [ds[0]], ds[1..n + 1]);
    FilterOfOne(IsStructural, ds[0]);
    FilterOfOne(IsStructural, ds[n + 1]);
  }

  /** Around lines that scan, a line with one of the three words and an #endif are
      one block, and what the lines' own blocks are made of is inside it. */
  lemma {:induction false} ConditionalIsBlock(x: string, s: Token, body: Lines, y: string, t: Token)
    requires !Continues(x) && Parse(x) == Found(s) && s.kind in ["if", "ifdef", "ifndef"]
    requires !Continues(y) && Parse(y) == Found(t) && t.kind == "endif"
    requires Tile(body).pending == [] && AreGroups(Tile(body).groups) && ScanOf(Tile(body).groups).Scanned?
    ensures AreGroups(Tile([x] + body + [y]).groups)
    ensures var scan, inner := ScanOf(Tile([x] + body + [y]).groups), ScanOf(Tile(body).groups);
            && scan.Scanned? && |scan.tree| == 1 && scan.tree[0].open.token == s && scan.tree[0].close.token == t
            && Bare(Flatten(scan.tree[0].children)) == Bare(Flatten(inner.tree))
  {
    hide Tile, Parse, Directives, Continues, ScanOf, Founds, Balanced, Located, Flatten, Filter, IsForest, Bare;
    var ts := ScannedTokens(body);
    var lines, us := [x] + body + [y], [s] + ts + [t];
    WrappedLines(x, s, body, y, t);
    FoundsAroundBody(s, ts, t);
    BalancedPair(s, ts, t);
    ScansAs(lines, us);
    ScansAs(body, ts);
    var ds, n := Located(Tile(lines).groups), |ts|;
    BareLength(ds);
    BareParts(ds, s, ts, t);
    StructuralParts(ds, n);
    SameFilter(IsStructural, ds[1..n + 1], Located(Tile(body).groups));
    StructuralKeeps();
    FilterBalanced(IsStructural, ds[1..n + 1]);
    OneBlock(ScanOf(Tile(lines).groups).tree, ds[0], Structural(ds[1..n + 1]), ds[n + 1]);
  }

  /** The words as they are written. */
  lemma {:induction false} ThreeWordsOpen(x: string, blanks: string, word: string, rest: string, body: Lines, y: string)
    requires !Continues(x) && Strip(x) == "#" + blanks + word + rest && (forall i | 0 <= i < |blanks| :: IsSpace(blanks[i]))
    requires word in ["if", "ifdef", "ifndef"] && (rest == "" || IsSpace(rest[0])) && !Continues(y) && Strip(y) == "#endif"
    requires Tile(body).pending == [] && AreGroups(Tile(body).groups) && ScanOf(Tile(body).groups).Scanned?
    ensures AreGroups(Tile([x] + body + [y]).groups)
    ensures var scan := ScanOf(Tile([x] + body + [y]).groups);
            scan.Scanned? && |scan.tree| == 1 && scan.tree[0].open.token.kind == word && scan.tree[0].close.token == Token("endif", None)
  {
    hide Tile, Parse, Continues, ScanOf, Strip, Flatten, Bare, StripLeft;
    WordsAreSolid();
    DirectiveReads(x, blanks, word, rest);
    assert "#endif" == "#" + "" + "endif" + "";
    DirectiveReads(y, "", "endif", "");
    NothingStrips();
    ConditionalIsBlock(x, Parse(x).token, body, y, Parse(y).token);
  }

  lemma NothingStrips()
    ensures StripLeft("") == ""
  {
  }

  lemma WordsAreSolid()
    ensures forall word | word in ["if", "ifdef", "ifndef", "endif"] :: word != "" && forall i | 0 <= i < |word| :: !IsSpace(word[i])
  {
  }

  /** No other word opens or closes: not elif, else, include, define or pragma. */
  lemma {:induction false} WordScansIff(a: Lines, line: string, blanks: string, word: string, rest: string, b: Lines)
    requires Tile(a).pending == [] && !Continues(line) && Strip(line) == "#" + blanks + word + rest
    requires (forall i | 0 <= i < |blanks| :: IsSpace(blanks[i])) && (rest == "" || IsSpace(rest[0]))
    requires word != "" && (forall i | 0 <= i < |word| :: !IsSpace(word[i]))
    requires AreGroups(Tile(a + b).groups) && ScanOf(Tile(a + b).groups).Scanned?
    ensures AreGroups(Tile(a + [line] + b).groups)
    ensures ScanOf(Tile(a + [line] + b).groups).Scanned? <==> word !in ["if", "ifdef", "ifndef", "endif"]
  {
    hide Tile, Parse, Continues, ScanOf, Strip, StripLeft, IsSpace;
    DirectiveReads(line, blanks, word, rest);
    LineScansIff(a, line, Parse(line).token, b);
  }

  lemma BareParts(ds: seq<Directive>, s: Token, ts: seq<Token>, t: Token)
    requires Bare(ds) == [s] + ts + [t]
    ensures |ds| == |ts| + 2 && ds[0].token == s && ds[|ts| + 1].token == t && Bare(ds[1..|ts| + 1]) == ts
  {
    assert |Bare(ds)| == |ds|;
    assert Bare(ds)[0] == ds[0].token && Bare(ds)[|ts| + 1] == ds[|ts| + 1].token;
    BareSlices(ds, 1, |ts| + 1);
  }

  lemma FoundsAroundBody(s: Token, ts: seq<Token>, t: Token)
    ensures Founds([s] + ts + [t]) == [Found(s)] + Founds(ts) + [Found(t)]
  {
  }

  lemma {:induction false} WrappedLines(x: string, s: Token, body: Lines, y: string, t: Token)
    requires !Continues(x) && Parse(x) == Found(s) && !Continues(y) && Parse(y) == Found(t) && Tile(body).pending == []
    ensures AreGroups(Tile(body).groups) && AreGroups(Tile([x] + body + [y]).groups)
    ensures Directives(Tile([x] + body + [y]).groups) == [Found(s)] + Directives(Tile(body).groups) + [Found(t)]
  {
    hide Tile, Parse, Directives, Continues;
    NothingTiled();
    NoLines();
    LineBetween([], x, body, s);
    assert [] + [x] + body == [x] + body;
    LineBetween([x] + body, y, [], t);
    assert [x] + body + [y] + [] == [x] + body + [y];
  }
}
