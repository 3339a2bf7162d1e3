/** The generator of functions that print enumerators and read them back. */
module EnumNames {
  import opened Common

  // Strings

  predicate StandsAt(s: string, sub: string, i: nat) {
    i + |sub| <= |s| && s[i..i + |sub|] == sub
  }

  /** The first place of sub at or after i. */
  function Find(s: string, sub: string, i: nat): (r: Option<nat>)
    ensures r.Some? ==> i <= r.value && StandsAt(s, sub, r.value)
    ensures r.None? ==> forall k | i <= k :: !StandsAt(s, sub, k)
    decreases |s| - i
  {
    if StandsAt(s, sub, i) then Some(i) else if i >= |s| then None else Find(s, sub, i + 1)
  }

  predicate Contains(s: string, sub: string) {
    Find(s, sub, 0).Some?
  }

  /** What follows the last separator. */
  function AfterLast(s: string, sep: string): string
    requires sep != ""
    decreases |s|
  {
    match Find(s, sep, 0)
    case None => s
    case Some(i) => AfterLast(s[i + |sep|..], sep)
  }

  predicate IsSuffix(t: string, s: string) {
    |t| <= |s| && s[|s| - |t|..] == t
  }

  lemma SuffixContains(t: string, s: string, sub: string)
    requires IsSuffix(t, s) && Contains(t, sub)
    ensures Contains(s, sub)
  {
    var i := Find(t, sub, 0).value;
    var k := |s| - |t| + i;
    assert s[k..k + |sub|] == t[i..i + |sub|];
    assert StandsAt(s, sub, k);
  }

  lemma SuffixOfSuffix(t: string, s: string, r: string)
    requires IsSuffix(t, s) && IsSuffix(s, r)
    ensures IsSuffix(t, r)
  {
    assert r[|r| - |t|..] == r[|r| - |s|..][|s| - |t|..];
  }

  lemma {:induction false} AfterLastIs(s: string, sep: string)
    requires sep != ""
    ensures IsSuffix(AfterLast(s, sep), s) && !Contains(AfterLast(s, sep), sep)
    decreases |s|
  {
    match Find(s, sep, 0)
    case None =>
    case Some(i) =>
      var rest := s[i + |sep|..];
      AfterLastIs(rest, sep);
      assert IsSuffix(rest, s);
      SuffixOfSuffix(AfterLast(rest, sep), rest, s);
  }

  const PREFIX := "dnnl_"

  const MODES := ["dnnl_fpmath_mode_", "dnnl_accumulation_mode_", "dnnl_rounding_mode_", "dnnl_scratchpad_mode_", "dnnl_quantization_mode_", "dnnl_"]

  /** The separators cut off one after another. */
  function CutAll(v: string, seps: seq<string>): string
    requires forall k | 0 <= k < |seps| :: seps[k] != ""
  {
    if seps == [] then v else AfterLast(CutAll(v, seps[..|seps| - 1]), seps[|seps| - 1])
  }

  /** The name printed for an enumerator. */
  function SanitizeValue(v: string): string {
    if Contains(v, "undef") then "undef" else if Contains(v, "any") then "any" else CutAll(v, MODES)
  }

  predicate IsSpecial(v: string) {
    Contains(v, "undef") || Contains(v, "any")
  }

  predicate IsLast(v: string) {
    Contains(v, "last")
  }

  lemma {:induction false} CutAllIsSuffix(v: string, seps: seq<string>)
    requires forall k | 0 <= k < |seps| :: seps[k] != ""
    ensures IsSuffix(CutAll(v, seps), v)
    ensures seps != [] ==> !Contains(CutAll(v, seps), seps[|seps| - 1])
  {
    if seps != [] {
      var before := CutAll(v, seps[..|seps| - 1]);
      CutAllIsSuffix(v, seps[..|seps| - 1]);
      AfterLastIs(before, seps[|seps| - 1]);
      SuffixOfSuffix(AfterLast(before, seps[|seps| - 1]), before, v);
    } else {
      assert v[0..] == v;
    }
  }

  /** A printed ordinary name has no prefix left and nothing special in it. */
  lemma {:induction false} SanitizedIsPlain(v: string)
    requires !IsSpecial(v)
    ensures !Contains(SanitizeValue(v), PREFIX) && !Contains(SanitizeValue(v), "undef") && !Contains(SanitizeValue(v), "any")
  {
    CutAllIsSuffix(v, MODES);
    if Contains(SanitizeValue(v), "undef") {
      SuffixContains(SanitizeValue(v), v, "undef");
    }
    if Contains(SanitizeValue(v), "any") {
      SuffixContains(SanitizeValue(v), v, "any");
    }
  }

  // The generated functions

  /** A line of the printer: under a macro, if any, this enumerator prints so. */
  datatype PrintLine = PrintLine(macro: Option<string>, name: string, text: string)

  /** A line of the parser: an ordinary case, or one of the special names. */
  datatype ParseLine = Case(macro: Option<string>, short: string) | Special(short: string, name: string)

  /** Which macro guards an enumerator, if it is experimental. */
  type Features = string -> Option<string>

  function PrintLines(values: seq<string>, feature: Features): seq<PrintLine> {
    seq(|values|, i requires 0 <= i < |values| => PrintLine(feature(values[i]), values[i], SanitizeValue(values[i])))
  }

  function Cases(values: seq<string>, feature: Features): seq<ParseLine> {
    if values == [] then []
    else
      var v := values[|values| - 1];
      Cases(values[..|values| - 1], feature) + (if IsLast(v) || IsSpecial(v) then [] else [Case(feature(v), SanitizeValue(v))])
  }

  /** The special name that stands first in v. */
  function ShortOf(v: string): string {
    var any, undef := Find(v, "any", 0), Find(v, "undef", 0);
    if any.None? then "undef" else if undef.None? then "any" else if any.value < undef.value then "any" else "undef"
  }

  function Specials(values: seq<string>): seq<ParseLine> {
    if values == [] then []
    else
      var v := values[|values| - 1];
      Specials(values[..|values| - 1]) + (if !IsLast(v) && IsSpecial(v) then [Special(ShortOf(v), v)] else [])
  }

  function LastUndef(values: seq<string>): Option<string> {
    if values == [] then None
    else
      var v := values[|values| - 1];
      if !IsLast(v) && Contains(v, "undef") then Some(v) else LastUndef(values[..|values| - 1])
  }

  /** The body of the printer. */
  method FuncToStr(values: seq<string>, feature: Features) returns (lines: seq<PrintLine>)
    ensures lines == PrintLines(values, feature)
  {
    lines := [];
    for i := 0 to |values|
      invariant |lines| == i && forall k | 0 <= k < i :: lines[k] == PrintLine(feature(values[k]), values[k], SanitizeValue(values[k]))
    {
      var v := values[i];
      lines := lines + [PrintLine(feature(v), v, SanitizeValue(v))];
    }
  }

  /** The body of the parser and the enumerator it falls back to; none if there is
      no undefined enumerator. */
  method StrToFunc(values: seq<string>, feature: Features, isFormatTag: bool) returns (r: Option<(seq<ParseLine>, string)>)
    ensures r.Some? <==> LastUndef(values).Some?
    ensures r.Some? ==> r.value.0 == Cases(values, feature) + Specials(values)
    ensures r.Some? ==> r.value.1 == if isFormatTag then "dnnl_format_tag_last" else LastUndef(values).value
  {
    hide IsLast, IsSpecial, Contains, SanitizeValue, ShortOf;
    var lines, special, undef: Option<string> := [], [], None;
    for i := 0 to |values|
      invariant lines == Cases(values[..i], feature) && undef == LastUndef(values[..i])
      invariant Specials(values[..i]) == special
    {
      var v := values[i];
      assert values[..i + 1][..i] == values[..i];
      if IsLast(v) {
        assert Cases(values[..i], feature) + [] == Cases(values[..i], feature) && special + [] == special;
        continue;
      }
      SpecialIf(v);
      if Contains(v, "undef") {
        undef := Some(v);
        special := special + [Special(ShortOf(v), v)];
        assert Cases(values[..i], feature) + [] == Cases(values[..i], feature);
        continue;
      }
      if Contains(v, "any") {
        special := special + [Special(ShortOf(v), v)];
        assert Cases(values[..i], feature) + [] == Cases(values[..i], feature);
        continue;
      }
      lines := lines + [Case(feature(v), SanitizeValue(v))];
      assert special + [] == special;
    }
    assert values[..|values|] == values;
    if undef.None? {
      return None;
    }
    r := Some((lines + special, if isFormatTag then "dnnl_format_tag_last" else undef.value));
  }

  lemma SpecialIf(v: string)
    ensures IsSpecial(v) <==> Contains(v, "undef") || Contains(v, "any")
  {
  }

  // What they do when they run

  predicate IsOn(macro: Option<string>, on: string -> bool) {
    macro.None? || on(macro.value)
  }

  /** The first enabled line for this number. */
  function Printed(lines: seq<PrintLine>, value: string -> int, on: string -> bool, number: int): Option<string> {
    if lines == [] then None
    else if IsOn(lines[0].macro, on) && value(lines[0].name) == number then Some(lines[0].text)
    else Printed(lines[1..], value, on, number)
  }

  predicate Matches(l: ParseLine, on: string -> bool, s: string) {
    match l
    case Case(macro, short) => IsOn(macro, on) && (s == short || s == PREFIX + short)
    case Special(short, name) => s == short || s == name
  }

  function Result(l: ParseLine, value: string -> int): int {
    match l
    case Case(_, short) => value(PREFIX + short)
    case Special(_, name) => value(name)
  }

  /** The first line that matches, or the default. */
  function Parsed(lines: seq<ParseLine>, default_: string, value: string -> int, on: string -> bool, s: string): int {
    if lines == [] then value(default_)
    else if Matches(lines[0], on, s) then Result(lines[0], value)
    else Parsed(lines[1..], default_, value, on, s)
  }

  // They are inverse

  /** Ordinary names are the prefix and what is printed; no two print alike;
      there is at most one special name of each kind, and no name is both. */
  ghost predicate IsRegular(values: seq<string>) {
    && (forall k | 0 <= k < |values| && !IsSpecial(values[k]) :: values[k] == PREFIX + SanitizeValue(values[k]))
    && (forall k, l | 0 <= k < l < |values| :: SanitizeValue(values[k]) != SanitizeValue(values[l]))
    && (forall k | 0 <= k < |values| :: !(Contains(values[k], "any") && Contains(values[k], "undef")))
  }

  lemma {:induction false} NoMatch(lines: seq<ParseLine>, default_: string, value: string -> int, on: string -> bool, s: string)
    requires forall i | 0 <= i < |lines| :: !Matches(lines[i], on, s)
    ensures Parsed(lines, default_, value, on, s) == value(default_)
  {
    if lines != [] {
      NoMatch(lines[1..], default_, value, on, s);
    }
  }

  /** Every line of the parser stems from one enumerator. */
  lemma {:induction false} CaseOf(values: seq<string>, feature: Features, i: nat) returns (k: nat)
    requires i < |Cases(values, feature)|
    ensures k < |values| && !IsLast(values[k]) && !IsSpecial(values[k])
    ensures Cases(values, feature)[i] == Case(feature(values[k]), SanitizeValue(values[k]))
    decreases |values|
  {
    hide IsLast, IsSpecial, SanitizeValue;
    var n := |values| - 1;
    if i < |Cases(values[..n], feature)| {
      k := CaseOf(values[..n], feature, i);
    } else {
      k := n;
    }
  }

  lemma {:induction false} CaseFor(values: seq<string>, feature: Features, k: nat) returns (i: nat)
    requires k < |values| && !IsLast(values[k]) && !IsSpecial(values[k])
    ensures i < |Cases(values, feature)| && Cases(values, feature)[i] == Case(feature(values[k]), SanitizeValue(values[k]))
    decreases |values|
  {
    hide IsLast, IsSpecial, SanitizeValue;
    var n := |values| - 1;
    if k < n {
      i := CaseFor(values[..n], feature, k);
    } else {
      i := |Cases(values[..n], feature)|;
    }
  }

  lemma {:induction false} SpecialOf(values: seq<string>, i: nat) returns (k: nat)
    requires i < |Specials(values)|
    ensures k < |values| && !IsLast(values[k]) && IsSpecial(values[k]) && Specials(values)[i] == Special(ShortOf(values[k]), values[k])
    decreases |values|
  {
    hide IsLast, IsSpecial, ShortOf;
    var n := |values| - 1;
    if i < |Specials(values[..n])| {
      k := SpecialOf(values[..n], i);
    } else {
      k := n;
    }
  }

  lemma {:induction false} SpecialFor(values: seq<string>, k: nat) returns (i: nat)
    requires k < |values| && !IsLast(values[k]) && IsSpecial(values[k])
    ensures i < |Specials(values)| && Specials(values)[i] == Special(ShortOf(values[k]), values[k])
    decreases |values|
  {
    hide IsLast, IsSpecial, ShortOf;
    var n := |values| - 1;
    if k < n {
      i := SpecialFor(values[..n], k);
    } else {
      i := |Specials(values[..n])|;
    }
  }

  lemma ShortIsPrinted(v: string)
    requires IsSpecial(v) && !(Contains(v, "any") && Contains(v, "undef"))
    ensures ShortOf(v) == SanitizeValue(v) && Contains(v, ShortOf(v)) && (ShortOf(v) == "any" || ShortOf(v) == "undef")
  {
  }

  lemma PrefixIsThere(short: string)
    ensures Contains(PREFIX + short, PREFIX)
  {
    assert StandsAt(PREFIX + short, PREFIX, 0);
  }

  lemma SpecialWords()
    ensures Contains("undef", "undef") && Contains("any", "any") && !Contains("any", "undef") && !Contains("undef", "any")
    ensures !Contains("any", PREFIX) && !Contains("undef", PREFIX)
  {
    assert StandsAt("undef", "undef", 0) && StandsAt("any", "any", 0);
    forall i: nat
      ensures !StandsAt("undef", "any", i)
    {
      if i + 3 <= 5 {
        assert "undef"[i..i + 3][0] == "undef"[i];
        assert "any"[0] == 'a';
      }
    }
  }

  /** What is printed for one enumerator matches the line of no other ordinary one. */
  lemma {:induction false} CaseMatchesOnly(values: seq<string>, feature: Features, on: string -> bool, k: nat, l: nat)
    requires IsRegular(values) && k < |values| && l < |values| && !IsLast(values[l]) && !IsSpecial(values[l])
    ensures Matches(Case(feature(values[l]), SanitizeValue(values[l])), on, SanitizeValue(values[k])) <==> k == l && IsOn(feature(values[l]), on)
  {
    hide IsLast, Contains, SanitizeValue;
    var s, t := SanitizeValue(values[k]), SanitizeValue(values[l]);
    NoPrefixPrinted(values[k]);
    PrefixIsThere(t);
  }

  lemma {:induction false} NoPrefixPrinted(v: string)
    ensures !Contains(SanitizeValue(v), PREFIX)
  {
    hide Contains, CutAll;
    SpecialWords();
    if !IsSpecial(v) {
      SanitizedIsPlain(v);
    }
  }

  lemma {:induction false} SpecialMatchesOnly(values: seq<string>, on: string -> bool, k: nat, l: nat)
    requires IsRegular(values) && k < |values| && l < |values| && IsSpecial(values[l])
    ensures Matches(Special(ShortOf(values[l]), values[l]), on, SanitizeValue(values[k])) ==> k == l
    ensures k == l ==> Matches(Special(ShortOf(values[l]), values[l]), on, SanitizeValue(values[k]))
  {
    hide Contains, CutAll;
    ShortIsPrinted(values[l]);
    SpecialWords();
    if !IsSpecial(values[k]) {
      SanitizedIsPlain(values[k]);
    } else {
      ShortIsPrinted(values[k]);
    }
  }

  /** The name an enumerator prints is read back as that enumerator's number; a
      last one is not among the cases and gives the default. */
  lemma {:induction false} NameReadsBack(values: seq<string>, feature: Features, default_: string, value: string -> int, on: string -> bool, k: nat)
    requires IsRegular(values) && k < |values| && IsOn(feature(values[k]), on)
    ensures Parsed(Cases(values, feature) + Specials(values), default_, value, on, SanitizeValue(values[k])) ==
            if IsLast(values[k]) then value(default_) else value(values[k])
  {
    hide Contains, SanitizeValue, Matches, Parsed, Cases, Specials, ShortOf;
    var lines, s := Cases(values, feature) + Specials(values), SanitizeValue(values[k]);
    var n := |Cases(values, feature)|;
    forall i | 0 <= i < |lines|
      ensures Matches(lines[i], on, s) ==> Result(lines[i], value) == value(values[k]) && !IsLast(values[k])
    {
      if i < n {
        var l := CaseOf(values, feature, i);
        CaseMatchesOnly(values, feature, on, k, l);
        assert values[l] == PREFIX + SanitizeValue(values[l]);
      } else {
        var l := SpecialOf(values, i - n);
        SpecialMatchesOnly(values, on, k, l);
      }
    }
    if !IsLast(values[k]) {
      var i := MatchFor(values, feature, on, k);
      AnyMatch(lines, default_, value, on, s, i, value(values[k]));
    } else {
      NoMatch(lines, default_, value, on, s);
    }
  }

  lemma {:induction false} MatchFor(values: seq<string>, feature: Features, on: string -> bool, k: nat) returns (i: nat)
    requires IsRegular(values) && k < |values| && IsOn(feature(values[k]), on) && !IsLast(values[k])
    ensures i < |Cases(values, feature) + Specials(values)|
    ensures Matches((Cases(values, feature) + Specials(values))[i], on, SanitizeValue(values[k]))
  {
    hide Contains, SanitizeValue, Matches, Cases, Specials, ShortOf;
    if IsSpecial(values[k]) {
      i := SpecialFor(values, k);
      SpecialMatchesOnly(values, on, k, k);
      i := |Cases(values, feature)| + i;
    } else {
      i := CaseFor(values, feature, k);
      CaseMatchesOnly(values, feature, on, k, k);
    }
  }

  lemma {:induction false} AnyMatch(lines: seq<ParseLine>, default_: string, value: string -> int, on: string -> bool, s: string, i: nat, number: int)
    requires i < |lines| && Matches(lines[i], on, s)
    requires forall l | 0 <= l < |lines| && Matches(lines[l], on, s) :: Result(lines[l], value) == number
    ensures Parsed(lines, default_, value, on, s) == number
    decreases |lines|
  {
    hide Matches, Result;
    if !Matches(lines[0], on, s) {
      AnyMatch(lines[1..], default_, value, on, s, i - 1, number);
    }
  }

  lemma {:induction false} PrintedIs(values: seq<string>, feature: Features, value: string -> int, on: string -> bool, number: int) returns (k: nat)
    requires Printed(PrintLines(values, feature), value, on, number).Some?
    ensures k < |values| && value(values[k]) == number && IsOn(feature(values[k]), on)
    ensures Printed(PrintLines(values, feature), value, on, number) == Some(SanitizeValue(values[k]))
    ensures forall l | 0 <= l < k && IsOn(feature(values[l]), on) :: value(values[l]) != number
    decreases |values|
  {
    hide SanitizeValue;
    var lines := PrintLines(values, feature);
    if IsOn(lines[0].macro, on) && value(lines[0].name) == number {
      k := 0;
    } else {
      assert lines[1..] == PrintLines(values[1..], feature);
      k := PrintedIs(values[1..], feature, value, on, number);
      k := k + 1;
    }
  }

  /** The parser undoes the printer under every setting of the macros, whatever
      numbers enumerators share, exactly if the first enumerator of that number is
      not a last one or has the default's number. */
  lemma {:induction false} ParserUndoesPrinter(values: seq<string>, feature: Features, default_: string, value: string -> int, on: string -> bool, number: int)
    returns (k: nat)
    requires IsRegular(values) && Printed(PrintLines(values, feature), value, on, number).Some?
    ensures k < |values| && value(values[k]) == number && IsOn(feature(values[k]), on)
    ensures forall l | 0 <= l < k && IsOn(feature(values[l]), on) :: value(values[l]) != number
    ensures Parsed(Cases(values, feature) + Specials(values), default_, value, on, Printed(PrintLines(values, feature), value, on, number).value) == number
            <==> !IsLast(values[k]) || value(default_) == number
  {
    hide Printed, Parsed, PrintLines, Cases, Specials, SanitizeValue, IsRegular, IsLast, IsOn;
    k := PrintedIs(values, feature, value, on, number);
    NameReadsBack(values, feature, default_, value, on, k);
  }

  lemma TooLong(s: string, sub: string)
    requires |sub| > |s|
    ensures !Contains(s, sub)
  {
  }

  lemma Lacks(s: string, sub: string, c: char)
    requires c in sub && c !in s
    ensures !Contains(s, sub)
  {
  }

  lemma {:induction false} LongCuts(v: string, seps: seq<string>)
    requires forall k | 0 <= k < |seps| :: |seps[k]| > |v|
    ensures CutAll(v, seps) == v
  {
    if seps != [] {
      var n := |seps| - 1;
      LongCuts(v, seps[..n]);
      TooLong(v, seps[n]);
    }
  }

  lemma LastIsPrinted()
    ensures SanitizeValue("dnnl_last") == "last" && IsLast("dnnl_last") && !IsSpecial("dnnl_last")
    ensures SanitizeValue("dnnl_undef") == "undef" && IsSpecial("dnnl_undef") && !Contains("dnnl_undef", "any") && !IsLast("dnnl_undef")
  {
    hide CutAll, Find;
    var v, w := "dnnl_last", "dnnl_undef";
    assert StandsAt(v, "last", 5) && StandsAt(w, "undef", 5);
    Lacks(v, "undef", 'u');
    Lacks(v, "any", 'y');
    Lacks(w, "any", 'y');
    Lacks(w, "last", 's');
    LongCuts(v, MODES[..5]);
    Unprefixed(v, "last");
  }

  lemma Unprefixed(v: string, t: string)
    requires v == PREFIX + t && CutAll(v, MODES[..5]) == v && !Contains(t, PREFIX)
    ensures CutAll(v, MODES) == t
  {
    assert StandsAt(v, PREFIX, 0);
    assert Find(v, PREFIX, 0) == Some(0);
    assert v[5..] == t;
    assert AfterLast(t, PREFIX) == t;
    assert MODES[..|MODES| - 1] == MODES[..5];
  }

  /** An enumerator that ends an enumeration is printed, and read back as the
      default. */
  lemma {:induction false} LastIsNotReadBack(feature: Features, value: string -> int, on: string -> bool)
    requires feature("dnnl_undef").None? && feature("dnnl_last").None? && value("dnnl_undef") == 0 && value("dnnl_last") == 1
    ensures var values := ["dnnl_undef", "dnnl_last"];
            && LastUndef(values) == Some("dnnl_undef")
            && Printed(PrintLines(values, feature), value, on, 1) == Some("last")
            && Parsed(Cases(values, feature) + Specials(values), "dnnl_undef", value, on, "last") == 0
  {
    hide SanitizeValue, Parsed, Cases, Specials, Contains;
    var values := ["dnnl_undef", "dnnl_last"];
    LastIsPrinted();
    assert IsRegular(values) by {
      assert PREFIX + "last" == "dnnl_last";
    }
    assert values[..1] == ["dnnl_undef"];
    var lines := PrintLines(values, feature);
    assert lines[1..][0] == lines[1];
    NameReadsBack(values, feature, "dnnl_undef", value, on, 1);
  }

  // Full names

  lemma {:induction false} FullMatchesOnly(values: seq<string>, feature: Features, on: string -> bool, k: nat, l: nat)
    requires IsRegular(values) && k < |values| && l < |values| && !IsLast(values[l]) && !IsSpecial(values[l])
    ensures Matches(Case(feature(values[l]), SanitizeValue(values[l])), on, values[k]) <==> k == l && IsOn(feature(values[l]), on)
  {
    hide IsLast, Contains, SanitizeValue;
    var t := SanitizeValue(values[l]);
    assert values[l] == PREFIX + t;
    NoPrefixPrinted(values[l]);
    SanitizedIsPlain(values[l]);
    if values[k] == t {
      PlainName(values, k, t);
    }
  }

  lemma {:induction false} PlainName(values: seq<string>, k: nat, t: string)
    requires IsRegular(values) && k < |values| && values[k] == t
    ensures Contains(t, PREFIX) || Contains(t, "undef") || Contains(t, "any")
  {
    hide SanitizeValue, Contains;
    if !IsSpecial(values[k]) {
      PrefixIsThere(SanitizeValue(values[k]));
    }
  }

  lemma {:induction false} FullSpecialMatchesOnly(values: seq<string>, on: string -> bool, k: nat, l: nat)
    requires IsRegular(values) && k < |values| && l < |values| && IsSpecial(values[l])
    ensures Matches(Special(ShortOf(values[l]), values[l]), on, values[k]) <==> k == l
  {
    hide Contains, CutAll;
    ShortIsPrinted(values[l]);
    SpecialWords();
    if values[k] == ShortOf(values[l]) {
      assert SanitizeValue(values[k]) == values[k];
    }
  }

  lemma {:induction false} FullMatchFor(values: seq<string>, feature: Features, on: string -> bool, k: nat) returns (i: nat)
    requires IsRegular(values) && k < |values| && IsOn(feature(values[k]), on) && !IsLast(values[k])
    ensures i < |Cases(values, feature) + Specials(values)| && Matches((Cases(values, feature) + Specials(values))[i], on, values[k])
  {
    hide Contains, SanitizeValue, Matches, Cases, Specials, ShortOf;
    if IsSpecial(values[k]) {
      i := SpecialFor(values, k);
      FullSpecialMatchesOnly(values, on, k, k);
      i := |Cases(values, feature)| + i;
    } else {
      i := CaseFor(values, feature, k);
      FullMatchesOnly(values, feature, on, k, k);
    }
  }

  /** The full name of an enumerator is read as its number, like the printed one. */
  lemma {:induction false} FullNameReads(values: seq<string>, feature: Features, default_: string, value: string -> int, on: string -> bool, k: nat)
    requires IsRegular(values) && k < |values| && IsOn(feature(values[k]), on)
    ensures Parsed(Cases(values, feature) + Specials(values), default_, value, on, values[k]) ==
            if IsLast(values[k]) then value(default_) else value(values[k])
  {
    hide Contains, SanitizeValue, Matches, Parsed, Cases, Specials, ShortOf;
    var lines, s := Cases(values, feature) + Specials(values), values[k];
    var n := |Cases(values, feature)|;
    forall i | 0 <= i < |lines|
      ensures Matches(lines[i], on, s) ==> Result(lines[i], value) == value(values[k]) && !IsLast(values[k])
    {
      if i < n {
        var l := CaseOf(values, feature, i);
        FullMatchesOnly(values, feature, on, k, l);
        assert values[l] == PREFIX + SanitizeValue(values[l]);
      } else {
        var l := SpecialOf(values, i - n);
        FullSpecialMatchesOnly(values, on, k, l);
      }
    }
    if !IsLast(values[k]) {
      var i := FullMatchFor(values, feature, on, k);
      AnyMatch(lines, default_, value, on, s, i, value(values[k]));
    } else {
      NoMatch(lines, default_, value, on, s);
    }
  }

  // Prefixes that are cut

  lemma ContainsPrefix(t: string, sep: string, i: nat)
    requires PREFIX <= sep && StandsAt(t, sep, i)
    ensures StandsAt(t, PREFIX, i) && Contains(t, PREFIX)
  {
    assert t[i..i + 5] == t[i..i + |sep|][..5] == sep[..5];
  }

  lemma NothingCut(t: string, sep: string)
    requires PREFIX <= sep && !Contains(t, PREFIX)
    ensures AfterLast(t, sep) == t
  {
    if Contains(t, sep) {
      ContainsPrefix(t, sep, Find(t, sep, 0).value);
    }
  }

  /** Nothing in the word that could begin another prefix. */
  predicate IsPlainMode(mode: string) {
    PREFIX <= mode && forall i | 1 <= i < |mode| && mode[i] == 'd' :: i + 1 < |mode| && mode[i + 1] != 'n'
  }

  lemma ModesArePlain()
    ensures forall k | 0 <= k < |MODES| :: IsPlainMode(MODES[k])
  {
    assert IsPlainMode(MODES[0]);
    assert IsPlainMode(MODES[1]);
    assert IsPlainMode(MODES[2]);
    assert IsPlainMode(MODES[3]);
    assert IsPlainMode(MODES[4]);
    assert IsPlainMode(MODES[5]);
  }

  lemma {:induction false} OnlyAtStart(mode: string, t: string, i: nat)
    requires IsPlainMode(mode) && !Contains(t, PREFIX) && StandsAt(mode + t, PREFIX, i)
    ensures i == 0
  {
    var v := mode + t;
    assert v[i..i + 5][0] == 'd' && v[i..i + 5][1] == 'n';
    assert v[i] == 'd' && v[i + 1] == 'n';
    if i >= |mode| {
      assert v[i..i + 5] == t[i - |mode|..i - |mode| + 5];
      assert StandsAt(t, PREFIX, i - |mode|);
    }
  }

  lemma {:induction false} OtherIsNotCut(mode: string, t: string, sep: string)
    requires IsPlainMode(mode) && PREFIX <= sep && !Contains(t, PREFIX) && !(sep <= mode + t)
    ensures AfterLast(mode + t, sep) == mode + t
  {
    hide IsPlainMode;
    match Find(mode + t, sep, 0)
    case None =>
    case Some(i) =>
      ContainsPrefix(mode + t, sep, i);
      OnlyAtStart(mode, t, i);
  }

  lemma {:induction false} ModeIsCut(mode: string, t: string)
    requires IsPlainMode(mode) && !Contains(t, PREFIX)
    ensures AfterLast(mode + t, mode) == t
  {
    assert StandsAt(mode + t, mode, 0);
    assert (mode + t)[|mode|..] == t;
    NothingCut(t, mode);
  }

  /** The separators before the mode leave the name, the mode is cut, and those
      after it leave the rest. */
  lemma {:induction false} CutsMode(seps: seq<string>, k: nat, t: string)
    requires k < |seps| && !Contains(t, PREFIX) && forall l | 0 <= l < |seps| :: IsPlainMode(seps[l]) && seps[l] != ""
    requires forall l | 0 <= l < k :: !(seps[l] <= seps[k] + t)
    ensures CutAll(seps[k] + t, seps) == t
    decreases |seps|
  {
    hide Contains, IsPlainMode, AfterLast;
    PlainModes(seps);
    var n := |seps| - 1;
    if k < n {
      CutsMode(seps[..n], k, t);
      NothingCut(t, seps[n]);
    } else {
      LeavesName(seps[..n], seps[n], t);
      ModeIsCut(seps[n], t);
    }
  }

  lemma PlainModes(seps: seq<string>)
    requires forall l | 0 <= l < |seps| :: IsPlainMode(seps[l])
    ensures forall l | 0 <= l < |seps| :: PREFIX <= seps[l] && seps[l] != ""
  {
  }

  lemma {:induction false} LeavesName(seps: seq<string>, mode: string, t: string)
    requires IsPlainMode(mode) && !Contains(t, PREFIX) && forall l | 0 <= l < |seps| :: PREFIX <= seps[l] && seps[l] != ""
    requires forall l | 0 <= l < |seps| :: !(seps[l] <= mode + t)
    ensures CutAll(mode + t, seps) == mode + t
  {
    hide Contains, IsPlainMode, AfterLast;
    if seps != [] {
      LeavesName(seps[..|seps| - 1], mode, t);
      OtherIsNotCut(mode, t, seps[|seps| - 1]);
    }
  }

  /** What stands after the prefix in names of the five modes. */
  const WORDS := ["fpmath_mode_", "accumulation_mode_", "rounding_mode_", "scratchpad_mode_", "quantization_mode_"]

  /** What is printed is the name without the prefix and without the word of its
      mode, if it has one. */
  lemma {:induction false} PrintsWithoutPrefix(k: nat, t: string)
    requires k <= 5 && !Contains(t, PREFIX)
    requires k < 5 ==> !IsSpecial("dnnl_" + WORDS[k] + t)
    requires k == 5 ==> !IsSpecial("dnnl_" + t) && forall l | 0 <= l < 5 :: !(WORDS[l] <= t)
    ensures SanitizeValue(if k < 5 then "dnnl_" + WORDS[k] + t else "dnnl_" + t) == t
  {
    hide Contains, CutAll, IsPlainMode, IsSpecial;
    ModesArePlain();
    ModesAreWords();
    SpecialIf(MODES[k] + t);
    forall l | 0 <= l < k
      ensures !(MODES[l] <= MODES[k] + t)
    {
      ModesDiffer(k, l, t);
    }
    CutsMode(MODES, k, t);
  }

  lemma ModesAreWords()
    ensures |MODES| == 6 && MODES[5] == "dnnl_" && (forall l | 0 <= l < 6 :: MODES[l] != "")
    ensures forall l | 0 <= l < 5 :: MODES[l] == "dnnl_" + WORDS[l]
  {
    assert MODES[0] == "dnnl_" + WORDS[0];
    assert MODES[1] == "dnnl_" + WORDS[1];
    assert MODES[2] == "dnnl_" + WORDS[2];
    assert MODES[3] == "dnnl_" + WORDS[3];
    assert MODES[4] == "dnnl_" + WORDS[4];
  }

  lemma WordsDiffer(k: nat, l: nat)
    requires l < k < 5
    ensures WORDS[k] != "" && WORDS[l] != "" && WORDS[k][0] != WORDS[l][0]
  {
    assert WORDS[0][0] == 'f' && WORDS[1][0] == 'a' && WORDS[2][0] == 'r' && WORDS[3][0] == 's' && WORDS[4][0] == 'q';
  }

  lemma {:induction false} ModesDiffer(k: nat, l: nat, t: string)
    requires l < k <= 5 && (k == 5 ==> !(WORDS[l] <= t))
    requires |MODES| == 6 && MODES[5] == "dnnl_" && forall l | 0 <= l < 5 :: MODES[l] == "dnnl_" + WORDS[l]
    ensures !(MODES[l] <= MODES[k] + t)
  {
    if k < 5 {
      WordsDiffer(k, l);
      TailPrefix("dnnl_", WORDS[l], WORDS[k] + t);
      assert MODES[k] + t == "dnnl_" + (WORDS[k] + t);
      assert (WORDS[k] + t)[0] == WORDS[k][0];
    } else {
      TailPrefix("dnnl_", WORDS[l], t);
    }
  }

  lemma TailPrefix(p: string, a: string, b: string)
    ensures p + a <= p + b ==> a <= b
  {
    if p + a <= p + b {
      assert (p + b)[..|p| + |a|] == p + a;
      assert b[..|a|] == (p + b)[..|p| + |a|][|p|..];
    }
  }
}
