/** Physical lines spliced into logical ones, and a file written back and read again. */
module Splicing {
  import opened HeaderText

  type Lines = seq<string>

  predicate Continues(line: string) {
    line != "" && line[|line| - 1] == '\\'
  }

  /** The complete groups of spliced lines, and the run that no line ends. */
  datatype Tiling = Tiling(groups: seq<Lines>, pending: Lines)

  function Tile(lines: Lines): Tiling {
    if lines == [] then Tiling([], [])
    else
      var t, line := Tile(lines[..|lines| - 1]), lines[|lines| - 1];
      if Continues(line) then t.(pending := t.pending + [line])
      else Tiling(t.groups + [t.pending + [line]], [])
  }

  function Flat(groups: seq<Lines>): Lines {
    if groups == [] then [] else Flat(groups[..|groups| - 1]) + groups[|groups| - 1]
  }

  lemma TileStep(front: Lines, line: string)
    ensures Tile(front + [line]) ==
            var t := Tile(front);
            if Continues(line) then Tiling(t.groups, t.pending + [line]) else Tiling(t.groups + [t.pending + [line]], [])
  {
    assert (front + [line])[..|front|] == front;
  }

  lemma FlatStep(gs: seq<Lines>, g: Lines)
    ensures Flat(gs + [g]) == Flat(gs) + g
  {
    assert (gs + [g])[..|gs|] == gs;
  }

  predicate IsRun(g: Lines) {
    forall k | 0 <= k < |g| :: Continues(g[k])
  }

  predicate IsGroup(g: Lines) {
    g != [] && IsRun(g[..|g| - 1]) && !Continues(g[|g| - 1])
  }

  predicate AreGroups(gs: seq<Lines>) {
    forall k | 0 <= k < |gs| :: IsGroup(gs[k])
  }

  lemma GroupIs(run: Lines, line: string)
    requires IsRun(run) && !Continues(line)
    ensures IsGroup(run + [line]) && (run + [line])[..|run|] == run
  {
    assert (run + [line])[..|run|] == run;
  }

  lemma RunIs(run: Lines, line: string)
    requires IsRun(run) && Continues(line)
    ensures IsRun(run + [line])
  {
  }

  lemma NothingTiled()
    ensures Tile([]) == Tiling([], []) && Flat([]) == [] && IsRun([])
  {
  }

  /** The groups and the dropped run tile the lines. */
  lemma {:induction false} TileCovers(lines: Lines)
    ensures Flat(Tile(lines).groups) + Tile(lines).pending == lines
    ensures AreGroups(Tile(lines).groups) && IsRun(Tile(lines).pending)
  {
    hide Tile, Flat, IsGroup, Continues, IsRun;
    NothingTiled();
    if lines != [] {
      var front, line := lines[..|lines| - 1], lines[|lines| - 1];
      assert lines == front + [line];
      TileCovers(front);
      TileStep(front, line);
      if Continues(line) {
        RunIs(Tile(front).pending, line);
      } else {
        GroupIs(Tile(front).pending, line);
        FlatStep(Tile(front).groups, Tile(front).pending + [line]);
      }
    }
  }

  lemma {:induction false} TileOfRun(lines: Lines, run: Lines)
    requires IsRun(run) && Tile(lines).pending == []
    ensures Tile(lines + run) == Tiling(Tile(lines).groups, run)
    decreases |run|
  {
    hide Tile;
    if run == [] {
      assert lines + run == lines;
    } else {
      var front, line := run[..|run| - 1], run[|run| - 1];
      TileOfRun(lines, front);
      assert lines + run == (lines + front) + [line];
      TileStep(lines + front, line);
      assert run == front + [line];
    }
  }

  /** No other tiling of the lines exists. */
  lemma {:induction false} TileIsUnique(gs: seq<Lines>, run: Lines)
    requires AreGroups(gs) && IsRun(run)
    ensures Tile(Flat(gs) + run) == Tiling(gs, run)
    decreases |gs|
  {
    hide Tile;
    NothingTiled();
    if gs == [] {
      TileOfRun([], run);
      assert [] + run == run;
    } else {
      var front, g := gs[..|gs| - 1], gs[|gs| - 1];
      var head, line := g[..|g| - 1], g[|g| - 1];
      TileIsUnique(front, head);
      TileStep(Flat(front) + head, line);
      assert head + [line] == g && front + [g] == gs;
      assert Flat(gs) == (Flat(front) + head) + [line];
      TileOfRun(Flat(gs), run);
    }
  }

  lemma TileOfGroups(gs: seq<Lines>)
    requires AreGroups(gs)
    ensures Tile(Flat(gs)) == Tiling(gs, [])
  {
    hide Tile, Flat;
    TileIsUnique(gs, []);
    assert Flat(gs) + [] == Flat(gs);
  }

  lemma {:induction false} FlatOfSum(a: seq<Lines>, b: seq<Lines>)
    ensures Flat(a + b) == Flat(a) + Flat(b)
    decreases |b|
  {
    if b == [] {
      assert a + b == a;
    } else {
      var n := |b| - 1;
      FlatOfSum(a, b[..n]);
      assert (a + b)[..|a + b| - 1] == a + b[..n];
    }
  }

  /** Lines that end a group can be followed by anything. */
  lemma TileOfSum(a: Lines, b: Lines)
    requires Tile(a).pending == []
    ensures Tile(a + b) == Tiling(Tile(a).groups + Tile(b).groups, Tile(b).pending)
  {
    hide Tile, Flat;
    TileCovers(a);
    TileCovers(b);
    var ga, tb := Tile(a).groups, Tile(b);
    FlatOfSum(ga, tb.groups);
    assert Flat(ga + tb.groups) + tb.pending == a + b;
    TileIsUnique(ga + tb.groups, tb.pending);
  }

  // The text of a group

  function Joined(lines: Lines): string {
    if lines == [] then "" else if |lines| == 1 then lines[0] else Joined(lines[..|lines| - 1]) + "\n" + lines[|lines| - 1]
  }

  function RemoveSplices(s: string): string {
    if s == "" then ""
    else if StartsWith(s, "\\\n") then RemoveSplices(s[2..])
    else [s[0]] + RemoveSplices(s[1..])
  }

  /** The lines of a run without their backslashes. */
  function Spliced(run: Lines): string
    requires IsRun(run)
  {
    if run == [] then "" else Spliced(run[..|run| - 1]) + run[|run| - 1][..|run[|run| - 1]| - 1]
  }

  function Text(g: Lines): string
    requires IsGroup(g)
  {
    Spliced(g[..|g| - 1]) + g[|g| - 1]
  }

  predicate OneLine(line: string) {
    forall k | 0 <= k < |line| :: !IsBreak(line[k])
  }

  predicate AreLines(lines: Lines) {
    forall k | 0 <= k < |lines| :: OneLine(lines[k])
  }

  lemma {:induction false} NothingToRemove(s: string)
    requires OneLine(s)
    ensures RemoveSplices(s) == s
  {
    if s != "" {
      NothingToRemove(s[1..]);
    }
  }

  lemma RemoveStep(c: char, s: string)
    requires c != '\\' || s == "" || s[0] != '\n'
    ensures RemoveSplices([c] + s) == [c] + RemoveSplices(s)
  {
    var t := [c] + s;
    assert t[1..] == s;
    assert "\\\n"[0] == '\\' && "\\\n"[1] == '\n';
  }

  lemma RemoveSplice(s: string)
    ensures RemoveSplices("\\\n" + s) == RemoveSplices(s)
  {
    assert ("\\\n" + s)[2..] == s;
  }

  lemma {:induction false} RemoveAfterLine(line: string, rest: string)
    requires OneLine(line) && Continues(line)
    ensures RemoveSplices(line + "\n" + rest) == line[..|line| - 1] + RemoveSplices(rest)
    decreases |line|
  {
    hide RemoveSplices;
    if |line| == 1 {
      assert line + "\n" + rest == "\\\n" + rest;
      RemoveSplice(rest);
      assert line[..0] + RemoveSplices(rest) == RemoveSplices(rest);
    } else {
      var tail := line[1..];
      assert line + "\n" + rest == [line[0]] + (tail + "\n" + rest);
      RemoveStep(line[0], tail + "\n" + rest);
      RemoveAfterLine(tail, rest);
      assert line[..|line| - 1] == [line[0]] + tail[..|tail| - 1];
    }
  }

  lemma JoinedMore(run: Lines, rest: string)
    requires |run| > 1
    ensures var n := |run| - 1;
            Joined(run) + "\n" + rest == Joined(run[..n]) + "\n" + (run[n] + "\n" + rest)
  {
  }

  lemma {:induction false} RemoveAfterRun(run: Lines, rest: string)
    requires IsRun(run) && AreLines(run) && run != []
    ensures RemoveSplices(Joined(run) + "\n" + rest) == Spliced(run) + RemoveSplices(rest)
    decreases |run|
  {
    hide RemoveSplices, OneLine, Joined;
    var n := |run| - 1;
    var front, line := run[..n], run[n];
    RemoveAfterLine(line, rest);
    if front != [] {
      JoinedMore(run, rest);
      RemoveAfterRun(front, line + "\n" + rest);
    } else {
      SingleJoined(run);
      assert Spliced(front) == "";
    }
  }

  /** Deleting every backslash that is followed by a newline splices the lines of a group. */
  lemma SplicingIsTextual(g: Lines)
    requires IsGroup(g) && AreLines(g)
    ensures RemoveSplices(Joined(g)) == Text(g)
  {
    var n := |g| - 1;
    NothingToRemove(g[n]);
    if n > 0 {
      RemoveAfterRun(g[..n], g[n]);
    }
  }

  /** A group, as the lines it spans and its lines joined. */
  datatype Logical = Logical(start: nat, end: nat, combined: string)

  ghost predicate Spans(l: Logical, gs: seq<Lines>, k: nat)
    requires k < |gs|
  {
    l.start == |Flat(gs[..k])| && l.end + 1 == l.start + |gs[k]| && l.combined == Joined(gs[k])
  }

  method Continuations(lines: Lines) returns (out: seq<Logical>)
    ensures |out| == |Tile(lines).groups|
    ensures forall k | 0 <= k < |out| :: Spans(out[k], Tile(lines).groups, k)
  {
    hide Tile, Joined;
    NothingTiled();
    var continuation: Lines := [];
    out := [];
    for index := 0 to |lines|
      invariant continuation == Tile(lines[..index]).pending
      invariant |out| == |Tile(lines[..index]).groups|
      invariant forall k | 0 <= k < |out| :: Spans(out[k], Tile(lines[..index]).groups, k)
    {
      var line := lines[index];
      assert lines[..index + 1] == lines[..index] + [line];
      TileStep(lines[..index], line);
      continuation := continuation + [line];
      if Continues(line) {
        continue;
      }
      TileCovers(lines[..index]);
      ghost var gs := Tile(lines[..index]).groups;
      forall k | 0 <= k < |out|
        ensures Spans(out[k], gs + [continuation], k)
      {
        assert (gs + [continuation])[..k] == gs[..k];
      }
      assert (gs + [continuation])[..|out|] == gs;
      out := out + [Logical(index + 1 - |continuation|, index, Joined(continuation))];
      continuation := [];
    }
    assert lines[..|lines|] == lines;
  }

  // Directives of a file

  /** What the groups of a file say, leaving out those that are not directives. */
  function Directives(gs: seq<Lines>): seq<Parsed>
    requires AreGroups(gs)
  {
    if gs == [] then []
    else
      var p := Parse(Text(gs[|gs| - 1]));
      Directives(gs[..|gs| - 1]) + (if p == NotDirective then [] else [p])
  }

  lemma DirectivesStep(gs: seq<Lines>, g: Lines)
    requires AreGroups(gs) && IsGroup(g)
    ensures AreGroups(gs + [g])
    ensures Directives(gs + [g]) == Directives(gs) + (if Parse(Text(g)) == NotDirective then [] else [Parse(Text(g))])
  {
    assert (gs + [g])[..|gs|] == gs;
  }

  lemma SumStep<T>(a: seq<T>, b: seq<T>)
    requires b != []
    ensures a + b == (a + b[..|b| - 1]) + [b[|b| - 1]]
    ensures b == b[..|b| - 1] + [b[|b| - 1]]
  {
  }

  lemma {:induction false} DirectivesOfSum(a: seq<Lines>, b: seq<Lines>)
    requires AreGroups(a) && AreGroups(b)
    ensures AreGroups(a + b) && Directives(a + b) == Directives(a) + Directives(b)
    decreases |b|
  {
    assert Directives([]) == [];
    hide Parse, Text, IsGroup, Directives;
    if b == [] {
      assert a + b == a;
    } else {
      var n := |b| - 1;
      DirectivesOfSum(a, b[..n]);
      SumStep(a, b);
      DirectivesStep(a + b[..n], b[n]);
      DirectivesStep(b[..n], b[n]);
    }
  }

  // Writing back

  /** The file without trailing blanks, as the next run reads it. */
  function Trimmed(lines: Lines): Lines {
    if lines == [] then [""]
    else
      var last := StripRight(lines[|lines| - 1]);
      if last == "" then Trimmed(lines[..|lines| - 1]) else lines[..|lines| - 1] + [last]
  }

  function FirstLine(text: string): string {
    if text == "" || IsBreak(text[0]) then "" else [text[0]] + FirstLine(text[1..])
  }

  lemma FirstLineIsPrefix(text: string)
    ensures |FirstLine(text)| <= |text|
  {
  }

  function SplitLines(text: string): Lines {
    if text == "" then []
    else
      FirstLineIsPrefix(text);
      var line := FirstLine(text);
      if |line| == |text| then [line] else [line] + SplitLines(text[|line| + 1..])
  }

  /** What the fixer writes: the joined lines, right stripped, and a newline. */
  function Written(lines: Lines): string {
    StripRight(Joined(lines)) + "\n"
  }

  lemma {:induction false} FirstLineIs(line: string, rest: string)
    requires OneLine(line) && rest != "" && IsBreak(rest[0])
    ensures FirstLine(line + rest) == line
  {
    if line == "" {
      assert line + rest == rest;
    } else {
      assert (line + rest)[1..] == line[1..] + rest;
      FirstLineIs(line[1..], rest);
    }
  }

  lemma {:induction false} JoinedFirst(lines: Lines)
    requires |lines| > 1
    ensures Joined(lines) == lines[0] + "\n" + Joined(lines[1..])
  {
    var n := |lines| - 1;
    if n > 1 {
      JoinedFirst(lines[..n]);
      assert lines[1..][..n - 1] == lines[..n][1..];
    } else {
      assert lines[..n] == [lines[0]];
    }
  }

  lemma SingleJoined(lines: Lines)
    requires |lines| == 1
    ensures Joined(lines) == lines[0]
  {
  }

  lemma {:induction false} SplitUndoesJoin(lines: Lines)
    requires AreLines(lines) && lines != []
    ensures SplitLines(Joined(lines) + "\n") == lines
    decreases |lines|
  {
    hide Joined, FirstLine, OneLine;
    var text := Joined(lines) + "\n";
    if |lines| == 1 {
      SingleJoined(lines);
      FirstLineIs(lines[0], "\n");
      assert text[|lines[0]| + 1..] == "";
    } else {
      JoinedFirst(lines);
      var rest := "\n" + Joined(lines[1..]) + "\n";
      assert text == lines[0] + rest;
      FirstLineIs(lines[0], rest);
      assert text[|lines[0]| + 1..] == Joined(lines[1..]) + "\n";
      SplitUndoesJoin(lines[1..]);
    }
  }

  lemma {:induction false} StripBlankEnd(a: string, b: string)
    requires forall k | 0 <= k < |b| :: IsSpace(b[k])
    ensures StripRight(a + b) == StripRight(a)
    decreases |b|
  {
    if b == "" {
      assert a + b == a;
    } else {
      assert (a + b)[..|a + b| - 1] == a + b[..|b| - 1];
      StripBlankEnd(a, b[..|b| - 1]);
    }
  }

  lemma {:induction false} StripJoined(lines: Lines)
    ensures Written(lines) == Joined(Trimmed(lines)) + "\n"
  {
    if lines != [] {
      var n := |lines| - 1;
      var front, line := lines[..n], lines[n];
      var last := StripRight(line);
      StripRightIsPrefix(line);
      if last == "" {
        StripJoined(front);
        if front != [] {
          assert Joined(lines) == Joined(front) + ("\n" + line);
          StripBlankEnd(Joined(front), "\n" + line);
        }
      } else if front != [] {
        assert Joined(lines) == (Joined(front) + "\n") + line;
        StripRightOfSum(Joined(front) + "\n", line);
      }
    }
  }

  lemma {:induction false} TrimmedAreLines(lines: Lines)
    requires AreLines(lines)
    ensures AreLines(Trimmed(lines)) && Trimmed(lines) != []
  {
    if lines != [] {
      var n := |lines| - 1;
      StripRightIsPrefix(lines[n]);
      if StripRight(lines[n]) == "" {
        TrimmedAreLines(lines[..n]);
      }
    }
  }

  /** The next run reads the lines that were written, without trailing blanks. */
  lemma ReadsBack(lines: Lines)
    requires AreLines(lines)
    ensures SplitLines(Written(lines)) == Trimmed(lines)
  {
    StripJoined(lines);
    TrimmedAreLines(lines);
    SplitUndoesJoin(Trimmed(lines));
  }

  lemma {:induction false} TrimmedTwice(lines: Lines)
    ensures Trimmed(Trimmed(lines)) == Trimmed(lines)
  {
    if lines != [] {
      var n := |lines| - 1;
      StripRightIsPrefix(lines[n]);
      if StripRight(lines[n]) == "" {
        TrimmedTwice(lines[..n]);
      } else {
        assert StripRight(StripRight(lines[n])) == StripRight(lines[n]);
      }
    }
  }

  /** The last character the fixer keeps is not a backslash. */
  predicate EndsCleanly(lines: Lines) {
    !Continues(Last(Trimmed(lines)))
  }

  function Last(lines: Lines): string {
    if lines == [] then "" else lines[|lines| - 1]
  }

  lemma BlankIsNoDirective(line: string)
    requires StripRight(line) == ""
    ensures IsGroup([line]) && Parse(Text([line])) == NotDirective
  {
    assert [line][..0] == [];
    assert Text([line]) == line;
  }

  lemma TextTrimmed(run: Lines, line: string)
    requires IsRun(run) && StripRight(line) != "" && !Continues(line) && !Continues(StripRight(line))
    ensures IsGroup(run + [line]) && IsGroup(run + [StripRight(line)])
    ensures Parse(Text(run + [line])) == Parse(Text(run + [StripRight(line)]))
  {
    GroupIs(run, line);
    GroupIs(run, StripRight(line));
    TrimmedPartParsesAlike(Spliced(run), line);
  }

  lemma LastGroupTrimmed(front: Lines, line: string)
    requires StripRight(line) != "" && !Continues(StripRight(line))
    ensures var a, b := Tile(front + [line]), Tile(front + [StripRight(line)]);
            && AreGroups(a.groups) && AreGroups(b.groups) && a.pending == b.pending == []
            && Directives(a.groups) == Directives(b.groups)
  {
    StripRightIsPrefix(line);
    hide Tile, Parse, Text, Directives, IsGroup, StripRight;
    assert !Continues(line);
    var last := StripRight(line);
    TileStep(front, line);
    TileStep(front, last);
    TileCovers(front);
    var t := Tile(front);
    TextTrimmed(t.pending, line);
    DirectivesStep(t.groups, t.pending + [line]);
    DirectivesStep(t.groups, t.pending + [last]);
  }

  lemma BlankLineAdded(front: Lines, line: string)
    requires StripRight(line) == "" && Tile(front).pending == [] && AreGroups(Tile(front).groups)
    ensures Tile(front + [line]).pending == [] && AreGroups(Tile(front + [line]).groups)
    ensures Directives(Tile(front + [line]).groups) == Directives(Tile(front).groups)
  {
    BlankIsNoDirective(line);
    hide Tile, Parse, Text, Directives, StripRight;
    TileStep(front, line);
    assert [] + [line] == [line];
    DirectivesStep(Tile(front).groups, [line]);
  }

  lemma TrimmedStep(front: Lines, line: string)
    ensures Trimmed(front + [line]) == if StripRight(line) == "" then Trimmed(front) else front + [StripRight(line)]
  {
    assert (front + [line])[..|front|] == front;
  }

  lemma EmptyTrimmed()
    ensures Tile([]).pending == [] && Tile(Trimmed([])).pending == []
    ensures Tile([]).groups == [] && AreGroups(Tile(Trimmed([])).groups)
    ensures Directives(Tile(Trimmed([])).groups) == Directives(Tile([]).groups)
  {
    BlankLineAdded([], "");
    assert [] + [""] == [""];
  }

  /** Trimming a file that ends cleanly keeps every directive and drops no run. */
  lemma {:induction false} TrimmingKeepsDirectives(lines: Lines)
    requires EndsCleanly(lines)
    ensures Tile(lines).pending == [] && Tile(Trimmed(lines)).pending == []
    ensures AreGroups(Tile(lines).groups) && AreGroups(Tile(Trimmed(lines)).groups)
    ensures Directives(Tile(Trimmed(lines)).groups) == Directives(Tile(lines).groups)
  {
    hide Tile, Parse, Text, Directives, IsGroup, Trimmed, StripRight, Continues;
    if lines == [] {
      EmptyTrimmed();
    } else {
      var n := |lines| - 1;
      var front, line := lines[..n], lines[n];
      assert lines == front + [line];
      TrimmedStep(front, line);
      if StripRight(line) == "" {
        TrimmingKeepsDirectives(front);
        BlankLineAdded(front, line);
      } else {
        LastGroupTrimmed(front, line);
      }
    }
  }
}
