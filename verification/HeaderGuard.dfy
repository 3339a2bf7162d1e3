/** What the fixer does to a header: which edits it makes and what it reports. */
module HeaderGuard {
  import opened Common
  import opened HeaderText
  import opened Splicing
  import opened Conditionals
  import opened GuardSearch
  import opened DirectiveScan
  import opened PragmaRemoval

  datatype Options = Options(inplace: bool, closingComment: bool)

  datatype Message =
    | MismatchedConditionals | UsesPragmaOnce | TooManyGuards | MissingGuard | MissingDefine | BrokenGuard
    | BrokenTopLevelGuard | MismatchedComment(comment: string) | ExpectedGuard(guard: string, got: string)
    | WrongEndifComment | NoContent | AddedGuard | AddedDefine | FixedComment | FixedGuard(name: string)
    | ReplacedPragmaOnce | FoundCorrectGuard

  datatype Verdict = Ok | Warn | Fail

  /** An unhandled error, or a report and the lines written, if any. */
  datatype Outcome = Crash | Done(verdict: Verdict, messages: seq<Message>, written: Option<Lines>)

  // Is there anything to guard?

  predicate Contains(line: string, k: nat) {
    k + 1 < |line| && line[k] == '*' && line[k + 1] == '/'
  }

  /** The position of the first end of a comment at or after k. */
  function FindEnd(line: string, k: nat): (e: nat)
    requires k <= |line|
    ensures e <= |line| && (e < |line| ==> Contains(line, e))
    decreases |line| - k
  {
    if k == |line| then k else if Contains(line, k) then k else FindEnd(line, k + 1)
  }

  datatype Reading = Code | Clean(inComment: bool)

  /** One stripped line, read from the start or from after a comment. */
  function ReadLine(line: string, inComment: bool): Reading
    decreases |line|, if inComment then 0 else 2
  {
    if line == "" then Clean(inComment)
    else if inComment then
      var e := FindEnd(line, 0);
      if e == |line| then Clean(true)
      else
        var rest := StripLeft(line[e + 2..]);
        StripLeftIsSuffix(line[e + 2..]);
        ReadCode(rest)
    else ReadCode(line)
  }

  /** Outside a comment: only another comment or a directive is not code.  What
      follows a comment is read even when nothing does. */
  function ReadCode(line: string): Reading
    decreases |line|, 1
  {
    if StartsWith(line, "/*") then ReadLine(line, true)
    else if StartsWith(line, "//") || StartsWith(line, "#") then Clean(false)
    else Code
  }

  function ReadLines(gs: seq<Lines>): Reading {
    if gs == [] then Clean(false)
    else
      match ReadLines(gs[..|gs| - 1])
      case Code => Code
      case Clean(inComment) => ReadLine(Strip(Joined(gs[|gs| - 1])), inComment)
  }

  predicate NoCode(lines: Lines) {
    ReadLines(Tile(lines).groups).Clean?
  }

  /** A slice whose bounds may lie past the end. */
  function Slice(lines: Lines, from: nat, to: nat): Lines {
    var a, b := Min(from, |lines|), Min(to, |lines|);
    if a < b then lines[a..b] else []
  }

  /** Whether code stands before, between or after the top-level blocks from k on. */
  predicate HasContent(lines: Lines, blocks: seq<Block>, k: nat, start: nat)
    decreases |blocks| - k
  {
    if k >= |blocks| then !NoCode(Slice(lines, start, |lines|))
    else if blocks[k].open.start < start then HasContent(lines, blocks, k + 1, start)
    else !NoCode(Slice(lines, start, blocks[k].open.start)) || HasContent(lines, blocks, k + 1, blocks[k].close.end)
  }

  // Edits

  function Opening(guard: string): string {
    "#ifndef " + guard
  }

  function Defining(guard: string): string {
    "#define " + guard
  }

  function Closing(guard: string, comment: bool): string {
    if comment then "#endif // " + guard else "#endif"
  }

  /** The lines with the guard's first lines put in. */
  function Opened(lines: Lines, guard: string, at: nat): Lines
    requires at < |lines|
  {
    lines[..at] + (["", Opening(guard), Defining(guard)] + (if Strip(lines[at]) != "" then [""] else [])) + lines[at..]
  }

  predicate HasVimTrailer(lines: Lines) {
    StartsWith(Last(lines), "// vim:")
  }

  /** The caller's lines after a guard was added.  Below an editor trailer the
      closing lines go to a copy, and the caller's lines stay without them. */
  function Inserted(lines: Lines, guard: string, at: nat, comment: bool): Lines
    requires at < |lines|
  {
    var started := Opened(lines, guard, at);
    if HasVimTrailer(started) then started
    else started + (if Strip(Last(started)) != "" then [""] else []) + [Closing(guard, comment), ""]
  }

  function Replaced(lines: Lines, ds: seq<Directive>, text: string): Lines {
    if ds == [] then lines
    else
      var d := ds[|ds| - 1];
      SliceSet(Replaced(lines, ds[..|ds| - 1], text), d.start, d.end + 1, [text])
  }

  function GuardReplaced(lines: Lines, guard: string, b: Block, ds: seq<Directive>, close: bool): Lines {
    var l := Replaced(SliceSet(lines, b.open.start, b.open.end + 1, [Opening(guard)]), ds, Defining(guard));
    if close then SliceSet(l, b.close.start, b.close.end + 1, [Closing(guard, true)]) else l
  }

  /** The name in a comment after #endif, when it is not the one wanted. */
  function WrongComment(guard: string, args: Option<string>): Option<string> {
    if args.None? then None
    else
      var comment := CommentGuard(args.value);
      if comment.Some? && comment.value != guard && Upper(comment.value) != "HEADER GUARD" then comment else None
  }

  predicate ReplacesEndif(guard: string, o: Options, args: Option<string>) {
    if args.None? then o.closingComment else WrongComment(guard, args).Some?
  }

  // The decision

  function AddGuard(rest: Lines, guard: string, o: Options, tree: seq<Block>, ends: nat, pragmas: bool): Outcome {
    var messages := if pragmas && !o.inplace then [UsesPragmaOnce] else [];
    if !HasContent(rest, tree, 0, ends) then
      if messages == [] then Done(Ok, [NoContent], None) else Done(Fail, messages, None)
    else if !o.inplace then Done(Fail, messages + [MissingGuard], None)
    else if ends >= |rest| then Crash
    else Done(Ok, [if pragmas then ReplacedPragmaOnce else AddedGuard], Some(Inserted(rest, guard, ends, o.closingComment)))
  }

  function RepairGuard(rest: Lines, guard: string, o: Options, b: Block, defines: map<string, seq<Directive>>, pragmas: bool)
    : Outcome
  {
    var messages := if pragmas && !o.inplace then [UsesPragmaOnce] else [];
    match IfndefArgument(b.open.token)
    case None => Done(Fail, messages + [BrokenGuard], None)
    case Some(name) =>
      var missing := name !in defines;
      if missing && !o.inplace then Done(Fail, messages + [MissingDefine], None)
      else
        var at := b.open.end + 1;
        var lines := if missing then SliceSet(rest, at, at, [Defining(name)]) else rest;
        var ds := if missing then [Directive(Token("define", Some(name)), at, at)] else defines[name];
        var wrong, close := WrongComment(guard, b.close.token.args), ReplacesEndif(guard, o, b.close.token.args);
        var message := if wrong.Some? then FixedComment else if missing then AddedDefine else FoundCorrectGuard;
        if name != guard || close then
          if o.inplace then
            Done(Ok, [if pragmas then ReplacedPragmaOnce else if name != guard then FixedGuard(name) else message],
                 Some(GuardReplaced(lines, guard, b, ds, close)))
          else
            Done(if pragmas || name != guard then Fail else Warn,
                 messages + (if wrong.Some? then [MismatchedComment(wrong.value)] else [])
                 + (if name != guard then [ExpectedGuard(guard, name)] else [])
                 + (if close then [WrongEndifComment] else []), None)
        else if o.inplace then Done(Ok, [if pragmas then ReplacedPragmaOnce else message], Some(lines))
        else if pragmas then Done(Fail, messages, None)
        else Done(Ok, [message], None)
  }

  function Adjust(lines: Lines, guard: string, o: Options, scan: Scan): Outcome
    requires scan.Scanned?
  {
    var guards, pragmas := Guards(guard, scan.tree), Pragmas(guard, scan.tree);
    var rest := RemoveAll(lines, pragmas);
    var messages := if pragmas != [] && !o.inplace then [UsesPragmaOnce] else [];
    if |guards| > 1 then Done(Fail, messages + [TooManyGuards], None)
    else
      match (if |guards| == 1 then Some(guards[0]) else Alternate(scan.tree))
      case None => AddGuard(rest, guard, o, scan.tree, scan.licenseEnds, pragmas != [])
      case Some(b) =>
        if b.open.token.args.None? then Done(Fail, messages + [BrokenTopLevelGuard], None)
        else RepairGuard(rest, guard, o, b, scan.defines, pragmas != [])
  }

  /** The outcome for a header whose guard should have this name. */
  function Fix(lines: Lines, guard: string, o: Options): Outcome {
    TileCovers(lines);
    match ScanOf(Tile(lines).groups)
    case ScanCrash => Crash
    case ScanMismatch => Done(Fail, [MismatchedConditionals], None)
    case Scanned(tree, defines, ends) => Adjust(lines, guard, o, Scanned(tree, defines, ends))
  }

  // The code

  method ReadsClean(line0: string, inComment0: bool) returns (reading: Reading)
    ensures reading == ReadLine(line0, inComment0)
  {
    var line, inComment := line0, inComment0;
    while line != ""
      invariant ReadLine(line, inComment) == ReadLine(line0, inComment0)
      decreases |line|, if inComment then 0 else 1
    {
      if inComment {
        var e := FindEnd(line, 0);
        if e == |line| {
          break;
        }
        StripLeftIsSuffix(line[e + 2..]);
        line := StripLeft(line[e + 2..]);
        inComment := false;
        assert ReadCode(line) == ReadLine(line0, inComment0);
      }
      if StartsWith(line, "/*") {
        inComment := true;
        continue;
      }
      if StartsWith(line, "//") || StartsWith(line, "#") {
        return Clean(false);
      }
      return Code;
    }
    reading := Clean(inComment);
  }

  method IsNoCode(lines: Lines) returns (clean: bool)
    ensures clean == NoCode(lines)
  {
    var logical := Continuations(lines);
    ghost var gs := Tile(lines).groups;
    var inComment := false;
    for k := 0 to |logical|
      invariant ReadLines(gs[..k]) == Clean(inComment)
    {
      assert Spans(logical[k], gs, k);
      assert gs[..k + 1][..k] == gs[..k];
      var reading := ReadsClean(Strip(logical[k].combined), inComment);
      if reading.Code? {
        CodeStays(gs, k + 1);
        return false;
      }
      inComment := reading.inComment;
    }
    assert gs[..|logical|] == gs;
    clean := true;
  }

  lemma {:induction false} CodeStays(gs: seq<Lines>, k: nat)
    requires k <= |gs| && ReadLines(gs[..k]).Code?
    ensures ReadLines(gs).Code?
    decreases |gs| - k
  {
    if k < |gs| {
      assert gs[..k + 1][..k] == gs[..k];
      CodeStays(gs, k + 1);
    } else {
      assert gs[..k] == gs;
    }
  }

  method FindsContent(lines: Lines, blocks: seq<Block>, licenseEnds: nat) returns (found: bool)
    ensures found == HasContent(lines, blocks, 0, licenseEnds)
  {
    var start := licenseEnds;
    for k := 0 to |blocks|
      invariant HasContent(lines, blocks, k, start) == HasContent(lines, blocks, 0, licenseEnds)
    {
      var block := blocks[k];
      if block.open.start < start {
        continue;
      }
      var section := Slice(lines, start, block.open.start);
      start := block.close.end;
      var clean := IsNoCode(section);
      if !clean {
        return true;
      }
    }
    var clean := IsNoCode(Slice(lines, start, |lines|));
    found := !clean;
  }

  /** A list of lines that is edited in place. */
  class LineList {
    var lines: Lines

    constructor (lines0: Lines)
      ensures lines == lines0
    {
      lines := lines0;
    }
  }

  method RemovePragmas(list: LineList, pragmas: seq<Block>)
    modifies list
    ensures list.lines == RemoveAll(old(list.lines), pragmas)
  {
    for k := 0 to |pragmas|
      invariant list.lines == RemoveAll(old(list.lines), pragmas[..k])
    {
      assert pragmas[..k + 1][..k] == pragmas[..k];
      list.lines := SliceSet(list.lines, pragmas[k].open.start, pragmas[k].close.end + 1, []);
    }
    assert pragmas[..|pragmas|] == pragmas;
  }

  /** Adds a guard.  The name list is rebound to a copy below an editor trailer,
      so that what follows is no longer the caller's list. */
  method InsertGuard(list0: LineList, guard: string, at: nat, comment: bool)
    requires at < |list0.lines|
    modifies list0
    ensures list0.lines == Inserted(old(list0.lines), guard, at, comment)
  {
    var list := list0;
    var extra := [Closing(guard, comment)];
    var replacement := ["", Opening(guard), Defining(guard)];
    if Strip(list.lines[at]) != "" {
      replacement := replacement + [""];
    }
    list.lines := list.lines[..at] + replacement + list.lines[at..];
    ghost var started := list.lines;
    assert started == Opened(old(list0.lines), guard, at);
    if StartsWith(Last(list.lines), "// vim:") {
      extra := extra + ["", Last(list.lines)];
      list := new LineList(list.lines[..|list.lines| - 1]);
    }
    if Strip(Last(list.lines)) != "" {
      list.lines := list.lines + [""];
    }
    list.lines := list.lines + (extra + [""]);
    if list == list0 {
      assert extra + [""] == [Closing(guard, comment), ""];
    }
  }

  method InsertDefine(list: LineList, guard: string, open: Directive) returns (d: Directive)
    modifies list
    ensures list.lines == SliceSet(old(list.lines), open.end + 1, open.end + 1, [Defining(guard)])
    ensures d == Directive(Token("define", Some(guard)), open.end + 1, open.end + 1)
  {
    var index := open.end + 1;
    list.lines := SliceSet(list.lines, index, index, [Defining(guard)]);
    d := Directive(Token("define", Some(guard)), index, index);
  }

  method ReplaceGuard(list: LineList, guard: string, block: Block, defines: seq<Directive>, close: bool)
    modifies list
    ensures list.lines == GuardReplaced(old(list.lines), guard, block, defines, close)
  {
    hide SliceSet, Defining, Opening, Closing;
    var open := block.open;
    list.lines := SliceSet(list.lines, open.start, open.end + 1, [Opening(guard)]);
    ghost var lines := list.lines;
    for k := 0 to |defines|
      invariant list.lines == Replaced(lines, defines[..k], Defining(guard))
    {
      assert defines[..k + 1][..k] == defines[..k];
      list.lines := SliceSet(list.lines, defines[k].start, defines[k].end + 1, [Defining(guard)]);
    }
    assert defines[..|defines|] == defines;
    if close {
      list.lines := SliceSet(list.lines, block.close.start, block.close.end + 1, [Closing(guard, true)]);
    }
  }

  method Repair(list: LineList, guard: string, o: Options, b: Block, defines0: map<string, seq<Directive>>, pragmas: bool)
    returns (out: Outcome)
    modifies list
    ensures out == RepairGuard(old(list.lines), guard, o, b, defines0, pragmas)
  {
    hide SliceSet, Replaced, GuardReplaced, CommentGuard, IfndefArgument, Defining, Upper, Min;
    var messages := if pragmas && !o.inplace then [UsesPragmaOnce] else [];
    var oldGuard := IfndefArgument(b.open.token);
    if oldGuard.None? {
      return Done(Fail, messages + [BrokenGuard], None);
    }
    var name := oldGuard.value;
    var message, defines := FoundCorrectGuard, defines0;
    if name !in defines {
      var define := InsertDefine(list, name, b.open);
      defines := defines[name := [define]];
      if !o.inplace {
        return Done(Fail, messages + [MissingDefine], None);
      }
      message := AddedDefine;
    }
    var replace, wrong := false, WrongComment(guard, b.close.token.args);
    if b.close.token.args.Some? {
      if wrong.Some? {
        message := FixedComment;
        replace := true;
      }
    } else if o.closingComment {
      replace := true;
    }
    if name != guard || replace {
      ReplaceGuard(list, guard, b, defines[name], replace);
      if !o.inplace {
        return Done(if pragmas || name != guard then Fail else Warn,
                    messages + (if wrong.Some? then [MismatchedComment(wrong.value)] else [])
                    + (if name != guard then [ExpectedGuard(guard, name)] else [])
                    + (if replace then [WrongEndifComment] else []), None);
      }
      if name != guard {
        message := FixedGuard(name);
      }
    }
    if o.inplace {
      return Done(Ok, [if pragmas then ReplacedPragmaOnce else message], Some(list.lines));
    }
    out := if pragmas then Done(Fail, messages, None) else Done(Ok, [message], None);
  }

  method AdjustContent(lines: Lines, guard: string, o: Options) returns (out: Outcome)
    requires AreLines(lines)
    ensures out == Fix(lines, guard, o)
  {
    var scan := ScanDirectives(lines);
    match scan
    case ScanCrash => return Crash;
    case ScanMismatch => return Done(Fail, [MismatchedConditionals], None);
    case Scanned(tree, defines, licenseEnds) =>
      var guards, pragmas, root := FindGuardBlocks(guard, tree);
      var messages := if pragmas != [] && !o.inplace then [UsesPragmaOnce] else [];
      var list := new LineList(lines);
      RemovePragmas(list, pragmas);
      if |guards| == 1 {
        root := Some(guards[0]);
      } else if |guards| > 1 {
        return Done(Fail, messages + [TooManyGuards], None);
      }
      match root
      case None =>
        var found := FindsContent(list.lines, tree, licenseEnds);
        if !found {
          return if messages == [] then Done(Ok, [NoContent], None) else Done(Fail, messages, None);
        }
        if !o.inplace {
          return Done(Fail, messages + [MissingGuard], None);
        }
        if licenseEnds >= |list.lines| {
          return Crash;
        }
        InsertGuard(list, guard, licenseEnds, o.closingComment);
        out := Done(Ok, [if pragmas != [] then ReplacedPragmaOnce else AddedGuard], Some(list.lines));
      case Some(b) =>
        if b.open.token.args.None? {
          return Done(Fail, messages + [BrokenTopLevelGuard], None);
        }
        out := Repair(list, guard, o, b, defines, pragmas != []);
  }
}
