/** The string operations the header guard fixer is written with, and how the
    directives it writes read back. */
module HeaderText {
  import opened Common

  /** The characters that separate words and that stripping removes. */
  predicate IsSpace(c: char) {
    || '\t' <= c <= '\r' || '\U{1C}' <= c <= ' ' || c == '\U{85}' || c == '\U{A0}' || c == '\U{1680}'
    || '\U{2000}' <= c <= '\U{200A}' || c == '\U{2028}' || c == '\U{2029}' || c == '\U{202F}'
    || c == '\U{205F}' || c == '\U{3000}'
  }

  /** The characters that end a line once line endings have been translated. */
  predicate IsBreak(c: char)
    ensures IsBreak(c) ==> IsSpace(c)
  {
    || c == '\n' || c == '\U{0B}' || c == '\U{0C}' || c == '\r' || '\U{1C}' <= c <= '\U{1E}' || c == '\U{85}'
    || c == '\U{2028}' || c == '\U{2029}'
  }

  function StripLeft(s: string): string {
    if s != "" && IsSpace(s[0]) then StripLeft(s[1..]) else s
  }

  function StripRight(s: string): string {
    if s != "" && IsSpace(s[|s| - 1]) then StripRight(s[..|s| - 1]) else s
  }

  function Strip(s: string): string {
    StripLeft(StripRight(s))
  }

  predicate StartsWith(s: string, p: string) {
    p <= s
  }

  predicate EndsWith(s: string, p: string) {
    |p| <= |s| && s[|s| - |p|..] == p
  }

  /** The leading run of characters that are not spaces. */
  function Word(s: string): string {
    if s == "" || IsSpace(s[0]) then "" else [s[0]] + Word(s[1..])
  }

  function Upper(s: string): string {
    seq(|s|, i requires 0 <= i < |s| => if 'a' <= s[i] <= 'z' then s[i] - 'a' + 'A' else s[i])
  }

  /** A word that can be the name of a guard. */
  predicate IsName(s: string) {
    s != "" && (forall i | 0 <= i < |s| :: !IsSpace(s[i])) && s[|s| - 1] != '\\'
  }

  // Directives

  datatype Token = Token(kind: string, args: Option<string>)

  datatype Parsed = NotDirective | Nameless | Found(token: Token)

  /** A spliced line: a lone # has no kind, which the fixer does not survive. */
  function Parse(text: string): Parsed {
    ParseStripped(Strip(text))
  }

  function ParseStripped(line: string): Parsed {
    if !StartsWith(line, "#") then NotDirective
    else
      var body := StripLeft(line[1..]);
      if body == "" then Nameless
      else
        var kind := Word(body);
        WordIsPrefix(body);
        var rest := StripLeft(body[|kind|..]);
        Found(Token(kind, if rest == "" then None else Some(rest)))
  }

  lemma WordIsPrefix(s: string)
    ensures |Word(s)| <= |s|
  {
  }

  // Facts about stripping

  lemma {:induction false} StripLeftIsSuffix(s: string)
    ensures |StripLeft(s)| <= |s| && s[|s| - |StripLeft(s)|..] == StripLeft(s)
    ensures StripLeft(s) != "" ==> !IsSpace(StripLeft(s)[0])
  {
    if s != "" && IsSpace(s[0]) {
      StripLeftIsSuffix(s[1..]);
    }
  }

  lemma {:induction false} StripRightIsPrefix(s: string)
    ensures StripRight(s) <= s
    ensures StripRight(s) != "" ==> !IsSpace(StripRight(s)[|StripRight(s)| - 1])
    ensures forall k | |StripRight(s)| <= k < |s| :: IsSpace(s[k])
  {
    if s != "" && IsSpace(s[|s| - 1]) {
      StripRightIsPrefix(s[..|s| - 1]);
    }
  }

  lemma StripKeeps(s: string)
    requires s == "" || (!IsSpace(s[0]) && !IsSpace(s[|s| - 1]))
    ensures Strip(s) == s
  {
  }

  /** Trailing spaces of the last of two parts do not matter unless that part is blank. */
  lemma {:induction false} StripRightOfSum(a: string, b: string)
    requires StripRight(b) != ""
    ensures StripRight(a + b) == a + StripRight(b)
    decreases |b|
  {
    if IsSpace(b[|b| - 1]) {
      assert (a + b)[..|a + b| - 1] == a + b[..|b| - 1];
      StripRightOfSum(a, b[..|b| - 1]);
    }
  }

  lemma TrimmedPartParsesAlike(a: string, b: string)
    requires StripRight(b) != ""
    ensures Parse(a + StripRight(b)) == Parse(a + b)
  {
    hide ParseStripped;
    StripRightOfSum(a, b);
    StripRightIsPrefix(b);
    StripRightOfSum(a, StripRight(b));
  }

  lemma {:induction false} WordOfSum(w: string, rest: string)
    requires forall i | 0 <= i < |w| :: !IsSpace(w[i])
    requires rest == "" || IsSpace(rest[0])
    ensures Word(w + rest) == w
  {
    if w != "" {
      assert (w + rest)[1..] == w[1..] + rest;
      WordOfSum(w[1..], rest);
    } else {
      assert w + rest == rest;
    }
  }

  lemma ParseLine(line: string, kind: string, rest: string)
    requires kind != "" && forall i | 0 <= i < |kind| :: !IsSpace(kind[i])
    requires rest == "" || IsSpace(rest[0])
    requires line == "#" + kind + rest && !IsSpace(line[|line| - 1])
    ensures Parse(line) == Found(Token(kind, if StripLeft(rest) == "" then None else Some(StripLeft(rest))))
  {
    StripKeeps(line);
    WordOfSum(kind, rest);
    assert line[1..] == kind + rest;
    assert (kind + rest)[0] == kind[0];
    assert (kind + rest)[|kind|..] == rest;
  }

  /** How a directive reads that is written as #, kind, one space, arguments. */
  lemma ParseWritten(line: string, kind: string, args: string)
    requires kind != "" && args != ""
    requires forall i | 0 <= i < |kind| :: !IsSpace(kind[i])
    requires !IsSpace(args[0]) && !IsSpace(args[|args| - 1])
    requires line == "#" + kind + " " + args
    ensures Parse(line) == Found(Token(kind, Some(args)))
  {
    var rest := " " + args;
    assert line == "#" + kind + rest;
    ParseLine(line, kind, rest);
    assert rest[1..] == args;
  }

  /** The directives of a guard read back as written. */
  lemma OpenReadsBack(guard: string)
    requires IsName(guard)
    ensures Parse("#ifndef " + guard) == Found(Token("ifndef", Some(guard)))
  {
    hide Parse;
    ParseWritten("#ifndef " + guard, "ifndef", guard);
  }

  lemma DefineReadsBack(guard: string)
    requires IsName(guard)
    ensures Parse("#define " + guard) == Found(Token("define", Some(guard)))
    ensures Word(guard) == guard
  {
    hide Parse;
    ParseWritten("#define " + guard, "define", guard);
    WordOfSum(guard, "");
    assert guard + "" == guard;
  }

  lemma CloseReadsBack(guard: string)
    requires IsName(guard)
    ensures Parse("#endif // " + guard) == Found(Token("endif", Some("// " + guard)))
    ensures Parse("#endif") == Found(Token("endif", None))
  {
    hide Parse;
    ParseWritten("#endif // " + guard, "endif", "// " + guard);
    ParseLine("#endif", "endif", "");
  }

  /** The guard named in a comment after #endif, if there is one. */
  function CommentGuard(args: string): Option<string> {
    var arg := StripRight(args);
    if StartsWith(arg, "//") then Some(StripLeft(arg[2..]))
    else if StartsWith(arg, "/*") && EndsWith(arg, "*/") then
      Some(if |arg| < 4 then "" else Strip(arg[2..|arg| - 2]))
    else None
  }

  lemma CommentReadsBack(guard: string)
    requires IsName(guard)
    ensures CommentGuard("// " + guard) == Some(guard)
  {
    var args := "// " + guard;
    assert args[|args| - 1] == guard[|guard| - 1];
    assert "//" <= args;
    var rest := args[2..];
    assert rest[0] == ' ' && rest[1..] == guard;
    assert StripLeft(rest) == StripLeft(guard) == guard;
  }
}
