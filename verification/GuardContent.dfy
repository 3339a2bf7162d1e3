/** Which sections the fixer takes to be free of code. */
module GuardContent {
  import opened Common
  import opened HeaderText
  import opened Splicing
  import opened Conditionals
  import opened HeaderGuard

  /** What follows the block comments a stripped line begins with, and whether one
      is still open at its end.  As the fixer has it, a comment ends at the first
      end mark from where it begins, so that one star may serve both marks. */
  function SkipComments(line: string, inComment: bool): (string, bool)
    decreases |line|, if inComment then 0 else 1
  {
    if inComment then
      var e := FindEnd(line, 0);
      if e == |line| then ("", true)
      else
        StripLeftIsSuffix(line[e + 2..]);
        SkipComments(StripLeft(line[e + 2..]), false)
    else if StartsWith(line, "/*") then SkipComments(line, true)
    else (line, false)
  }

  function LineOf(g: Lines): string {
    Strip(Joined(g))
  }

  /** Whether a block comment is open after these logical lines. */
  predicate OpenAfter(gs: seq<Lines>) {
    gs != [] &&
    var before, line := OpenAfter(gs[..|gs| - 1]), LineOf(gs[|gs| - 1]);
    if line == "" then before else SkipComments(line, before).1
  }

  /** The logical line is blank, or comments followed by nothing, by a line
      comment or by a directive. */
  predicate IsQuiet(line: string, inComment: bool) {
    var rest := SkipComments(line, inComment).0;
    rest == "" || StartsWith(rest, "//") || StartsWith(rest, "#")
  }

  /** A block comment ends where the logical line does. */
  predicate EndsComment(line: string, inComment: bool) {
    line != "" && SkipComments(line, inComment) == ("", false)
  }

  /** There is nothing but comments, directives and blanks. */
  ghost predicate OnlyComments(gs: seq<Lines>) {
    forall k | 0 <= k < |gs| :: IsQuiet(LineOf(gs[k]), OpenAfter(gs[..k]))
  }

  ghost predicate CommentEndsLine(gs: seq<Lines>) {
    exists k :: 0 <= k < |gs| && EndsComment(LineOf(gs[k]), OpenAfter(gs[..k]))
  }

  /** The reader and the comments of one line. */
  lemma {:induction false} ReadLineIs(line: string, inComment: bool)
    ensures line != "" ==> ReadLine(line, inComment) ==
                           if IsQuiet(line, inComment) && !EndsComment(line, inComment) then Clean(SkipComments(line, inComment).1) else Code
    ensures line != "" && !inComment ==> ReadCode(line) == ReadLine(line, false)
    decreases |line|, if inComment then 0 else 1
  {
    hide StartsWith, StripLeft;
    if line != "" {
      if inComment {
        var e := FindEnd(line, 0);
        if e < |line| {
          StripLeftIsSuffix(line[e + 2..]);
          var rest := StripLeft(line[e + 2..]);
          ReadLineIs(rest, false);
          if rest == "" {
            NothingIsCode();
          }
        }
      } else if StartsWith(line, "/*") {
        ReadLineIs(line, true);
      }
    }
  }

  lemma NothingIsCode()
    ensures ReadCode("") == Code && SkipComments("", false) == ("", false)
  {
  }

  lemma {:induction false} ReadLinesIs(gs: seq<Lines>)
    ensures ReadLines(gs) == if OnlyComments(gs) && !CommentEndsLine(gs) then Clean(OpenAfter(gs)) else Code
  {
    hide ReadLine, SkipComments, LineOf, IsQuiet, EndsComment;
    if gs != [] {
      var n := |gs| - 1;
      var front, line := gs[..n], LineOf(gs[n]);
      ReadLinesIs(front);
      ReadStep(gs);
      ReadLineIs(line, OpenAfter(front));
      BlankIsQuiet(OpenAfter(front));
      QuietStep(gs);
    }
  }

  lemma ReadStep(gs: seq<Lines>)
    requires gs != []
    ensures var n := |gs| - 1;
            var before, line := ReadLines(gs[..n]), LineOf(gs[n]);
            && ReadLines(gs) == (if before.Code? then Code else ReadLine(line, before.inComment))
            && OpenAfter(gs) == (if line == "" then OpenAfter(gs[..n]) else SkipComments(line, OpenAfter(gs[..n])).1)
  {
    hide ReadLine, SkipComments;
  }

  lemma BlankIsQuiet(inComment: bool)
    ensures IsQuiet("", inComment) && !EndsComment("", inComment) && ReadLine("", inComment) == Clean(inComment)
  {
  }

  lemma {:induction false} QuietStep(gs: seq<Lines>)
    requires gs != []
    ensures var n := |gs| - 1;
            var line, open := LineOf(gs[n]), OpenAfter(gs[..n]);
            && (OnlyComments(gs) <==> OnlyComments(gs[..n]) && IsQuiet(line, open))
            && (CommentEndsLine(gs) <==> CommentEndsLine(gs[..n]) || EndsComment(line, open))
  {
    hide SkipComments, LineOf, IsQuiet, EndsComment, OpenAfter;
    var n := |gs| - 1;
    var front := gs[..n];
    assert forall k | 0 <= k < n :: front[k] == gs[k] && front[..k] == gs[..k];
    if CommentEndsLine(gs) {
      var k :| 0 <= k < |gs| && EndsComment(LineOf(gs[k]), OpenAfter(gs[..k]));
      if k < n {
        assert EndsComment(LineOf(front[k]), OpenAfter(front[..k]));
      }
    }
    if CommentEndsLine(front) {
      var k :| 0 <= k < |front| && EndsComment(LineOf(front[k]), OpenAfter(front[..k]));
      assert EndsComment(LineOf(gs[k]), OpenAfter(gs[..k]));
    }
  }

  /** A section counts as free of code exactly if it has nothing but comments,
      directives and blanks and no block comment ends its logical line. */
  lemma NoCodeIff(lines: Lines)
    ensures NoCode(lines) <==> OnlyComments(Tile(lines).groups) && !CommentEndsLine(Tile(lines).groups)
  {
    hide Tile, ReadLines, OnlyComments, CommentEndsLine, OpenAfter;
    ReadLinesIs(Tile(lines).groups);
  }

  // Sections

  /** Where the section before block k begins and ends. */
  function SectionFrom(blocks: seq<Block>, k: nat, start: nat): nat
    requires k <= |blocks|
  {
    if k == 0 then start else blocks[k - 1].close.end
  }

  function SectionTo(lines: Lines, blocks: seq<Block>, k: nat): nat
    requires k <= |blocks|
  {
    if k == |blocks| then |lines| else blocks[k].open.start
  }

  /** The blocks follow each other, the first one at or after start, inside the lines. */
  ghost predicate InOrder(lines: Lines, blocks: seq<Block>, start: nat) {
    forall k | 0 <= k <= |blocks| :: SectionFrom(blocks, k, start) <= SectionTo(lines, blocks, k) <= |lines|
  }

  /** A header has content exactly if there is code before, between or after its
      top-level blocks; what is inside them does not count. */
  lemma {:induction false} HasContentIff(lines: Lines, blocks: seq<Block>, k: nat, start: nat)
    requires InOrder(lines, blocks, start) && k <= |blocks|
    ensures HasContent(lines, blocks, k, SectionFrom(blocks, k, start)) <==>
            exists l :: k <= l <= |blocks| && !NoCode(lines[SectionFrom(blocks, l, start)..SectionTo(lines, blocks, l)])
    decreases |blocks| - k
  {
    hide NoCode;
    var a, b := SectionFrom(blocks, k, start), SectionTo(lines, blocks, k);
    assert a <= b <= |lines|;
    assert Slice(lines, a, b) == lines[a..b];
    if k < |blocks| {
      HasContentIff(lines, blocks, k + 1, start);
    }
  }

  // What may follow an #endif

  lemma BlockCommentNames(name: string)
    requires IsName(name)
    ensures CommentGuard("/* " + name + " */") == Some(name)
  {
    var args := "/* " + name + " */";
    assert args[|args| - 1] == '/' && args[|args| - 2..] == "*/" && args[..2] == "/*";
    assert !("//" <= args) by {
      assert args[1] == '*';
    }
    var inner := args[2..|args| - 2];
    assert inner == " " + name + " ";
    assert inner[..|inner| - 1] == " " + name && (" " + name)[1..] == name;
    assert StripRight(inner) == StripRight(" " + name);
    assert (" " + name)[|name|] == name[|name| - 1];
    assert StripRight(" " + name) == " " + name;
    assert StripLeft(" " + name) == StripLeft(name) == name;
  }

  lemma NoComment(args: string)
    requires args != "" && args[0] != '/'
    ensures CommentGuard(args).None?
  {
    StripRightIsPrefix(args);
  }

  /** The #endif of a guard is rewritten if a comment is wanted and nothing follows
      it, or if a comment of either kind names something else, unless that is the
      words header guard; anything else stays. */
  lemma EndifReplacedIff(guard: string, o: Options, name: string, other: string)
    requires IsName(name) && other != "" && other[0] != '/'
    ensures ReplacesEndif(guard, o, None) <==> o.closingComment
    ensures ReplacesEndif(guard, o, Some("// " + name)) <==> name != guard
    ensures ReplacesEndif(guard, o, Some("/* " + name + " */")) <==> name != guard
    ensures !ReplacesEndif(guard, o, Some(other)) && !ReplacesEndif(guard, o, Some("// Header Guard"))
  {
    CommentReadsBack(name);
    BlockCommentNames(name);
    NoComment(other);
    NamesAreOneWord(name);
    HeaderGuardIsRead();
  }

  lemma NamesAreOneWord(name: string)
    requires IsName(name)
    ensures Upper(name) != "HEADER GUARD"
  {
    assert |name| == 12 ==> Upper(name)[6] == name[6] || 'A' <= Upper(name)[6] <= 'Z';
  }

  lemma HeaderGuardIsRead()
    ensures CommentGuard("// Header Guard") == Some("Header Guard") && Upper("Header Guard") == "HEADER GUARD"
  {
    var args := "// Header Guard";
    assert args[|args| - 1] == 'd';
    assert args[..2] == "//" && args[2..] == " Header Guard" && args[2..][1..] == "Header Guard";
    assert StripLeft("Header Guard") == "Header Guard";
    assert Upper("Header Guard") == "HEADER GUARD";
  }
}
