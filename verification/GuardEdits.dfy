/** What single edits of a header's lines do to its directives. */
module GuardEdits {
  import opened HeaderText
  import opened Splicing
  import opened Conditionals
  import opened GuardSearch
  import opened DirectiveScan
  import opened PragmaRemoval
  import opened HeaderGuard
  import opened GuardSettled

  /** Groups none of which is a #pragma once or a lone #. */
  ghost predicate Plain(ks: seq<Lines>)
    ensures Plain(ks) ==> AreGroups(ks)
  {
    AreGroups(ks) && Kept(ks) == ks && AllNamed(ks)
  }

  /** A line that is this directive by itself, and stays so when trimmed. */
  predicate IsDirective(x: string, t: Token) {
    !Continues(x) && Parse(x) == Found(t) && NotOnce(t) && x != "" && StripRight(x) == x
  }

  lemma {:induction false} SingleGroup(x: string)
    requires !Continues(x)
    ensures IsGroup([x]) && Text([x]) == x
  {
    assert [x][..0] == [];
  }

  lemma {:induction false} PlainParts(front: seq<Lines>, g: Lines)
    requires Plain(front + [g])
    ensures Plain(front) && IsGroup(g) && !IsOnceGroup(g) && !Parse(Text(g)).Nameless?
  {
    hide Kept, Parse, Text, IsGroup, IsOnceGroup;
    var ks := front + [g];
    assert ks[|front|] == g;
    assert forall k | 0 <= k < |front| :: front[k] == ks[k];
    KeptFront(front, g);
  }

  lemma {:induction false} PlainSum(front: seq<Lines>, g: Lines)
    requires Plain(front) && IsGroup(g) && !IsOnceGroup(g) && !Parse(Text(g)).Nameless?
    ensures Plain(front + [g])
  {
    hide Kept, Parse, Text, IsGroup, IsOnceGroup;
    KeptAppend(front, g);
  }

  /** The directive a last group adds. */
  function LastDirective(at: nat, g: Lines): (ds: seq<Directive>)
    requires IsGroup(g)
    ensures |ds| <= 1 && (|ds| == 1 ==> ds[0].start == at && ds[0].end + 1 == at + |g|)
  {
    match Parse(Text(g))
    case Found(t) => [Directive(t, at, at + |g| - 1)]
    case _ => []
  }

  lemma {:induction false} PlainLocated(front: seq<Lines>, g: Lines)
    requires Plain(front) && IsGroup(g)
    ensures AreGroups(front + [g]) && Located(front + [g]) == Located(front) + LastDirective(|Flat(front)|, g)
    ensures Flat(front + [g]) == Flat(front) + g
  {
    hide Kept, Parse, Text, IsGroup, Flat, Located;
    LocatedAppend(front, g);
    FlatStep(front, g);
  }

  // Replacing a directive that stands on one line

  lemma {:induction false} LastTrimmed(a: Lines, b: Lines)
    ensures Last(Trimmed(a + b)) == if Last(Trimmed(b)) != "" then Last(Trimmed(b)) else Last(Trimmed(a))
    decreases |b|
  {
    if b == [] {
      assert a + b == a;
    } else {
      var n := |b| - 1;
      assert (a + b)[..|a + b| - 1] == a + b[..n];
      LastTrimmed(a, b[..n]);
    }
  }

  lemma {:induction false} CleanAround(a: Lines, x: string, t: Token, b: Lines)
    requires IsDirective(x, t)
    ensures EndsCleanly(a + [x] + b) <==> Last(Trimmed(b)) == "" || EndsCleanly(b)
  {
    hide Trimmed, Parse;
    LastTrimmed(a + [x], b);
    LastTrimmed(a, [x]);
    LastOfOne(x);
  }

  lemma LastOfOne(x: string)
    requires x != "" && StripRight(x) == x
    ensures Last(Trimmed([x])) == x
  {
    assert [x][..0] == [];
  }

  /** A directive put in place of a line, or between lines, does not spoil the end. */
  lemma {:induction false} EditIsClean(lines: Lines, k: nat, l: nat, x: string, t: Token)
    requires IsDirective(x, t) && k <= l <= |lines| && EndsCleanly(lines)
    ensures EndsCleanly(lines[..k] + [x] + lines[l..])
  {
    hide Trimmed, IsDirective;
    assert lines == lines[..l] + lines[l..];
    LastTrimmed(lines[..l], lines[l..]);
    CleanAround(lines[..k], x, t, lines[l..]);
  }

  lemma {:induction false} EditAt(ks: seq<Lines>, j: nat, x: string, t: Token) returns (es: seq<Lines>)
    requires Plain(ks) && j < |Located(ks)| && Located(ks)[j].start == Located(ks)[j].end && IsDirective(x, t)
    ensures Plain(es)
    ensures Located(ks)[j].start < |Flat(ks)| && Flat(es) == Flat(ks)[Located(ks)[j].start := x]
    ensures Located(es) == Located(ks)[j := Directive(t, Located(ks)[j].start, Located(ks)[j].end)]
    decreases |ks|
  {
    hide Located, Flat, Plain, IsDirective, LastDirective;
    LocatedOfNone();
    var front, g := ks[..|ks| - 1], ks[|ks| - 1];
    assert ks == front + [g];
    PlainParts(front, g);
    PlainLocated(front, g);
    if j < |Located(front)| {
      var fs := EditAt(front, j, x, t);
      es := fs + [g];
      PlainSum(fs, g);
      PlainLocated(fs, g);
    } else {
      es := EditLast(front, g, x, t);
    }
  }

  lemma {:induction false} EditOne(ks: seq<Lines>, j: nat, x: string, t: Token) returns (es: seq<Lines>)
    requires Plain(ks) && j < |Located(ks)| && Located(ks)[j].start == Located(ks)[j].end && IsDirective(x, t)
    ensures Plain(es) && (EndsCleanly(Flat(ks)) ==> EndsCleanly(Flat(es)))
    ensures Located(ks)[j].start < |Flat(ks)| && Flat(es) == Flat(ks)[Located(ks)[j].start := x]
    ensures Located(es) == Located(ks)[j := Directive(t, Located(ks)[j].start, Located(ks)[j].end)]
  {
    hide Located, Flat, Plain, IsDirective, EndsCleanly;
    es := EditAt(ks, j, x, t);
    var lines, k := Flat(ks), Located(ks)[j].start;
    if EndsCleanly(lines) {
      EditIsClean(lines, k, k + 1, x, t);
      assert lines[k := x] == lines[..k] + [x] + lines[k + 1..];
    }
  }

  lemma {:induction false} EditLast(front: seq<Lines>, g: Lines, x: string, t: Token) returns (es: seq<Lines>)
    requires Plain(front) && IsGroup(g) && LastDirective(|Flat(front)|, g) != [] && LastDirective(|Flat(front)|, g)[0].end == |Flat(front)|
    requires IsDirective(x, t)
    ensures Plain(es) && Flat(es) == Flat(front) + [x] && |g| == 1
    ensures Located(es) == Located(front) + [Directive(t, |Flat(front)|, |Flat(front)|)]
  {
    hide Flat, Plain, Located, Parse, Text;
    SingleGroup(x);
    es := front + [[x]];
    PlainSum(front, [x]);
    PlainLocated(front, [x]);
  }

  /** The directives with every definition of one name turned into one of another. */
  function Renamed(ds: seq<Directive>, name: string, t: Token): seq<Directive> {
    seq(|ds|, k requires 0 <= k < |ds| => if IsDefine(name, ds[k].token) then ds[k].(token := t) else ds[k])
  }

  ghost predicate SingleLines(ds: seq<Directive>) {
    forall k | 0 <= k < |ds| :: ds[k].start == ds[k].end
  }

  lemma SetOne(lines: Lines, k: nat, x: string)
    requires k < |lines|
    ensures SliceSet(lines, k, k + 1, [x]) == lines[k := x]
  {
  }

  lemma AddedLine(rest: Lines, at: nat, x: string)
    requires at <= |rest|
    ensures SliceSet(rest, at, at, [x]) == rest[..at] + [x] + rest[at..]
  {
  }

  lemma ReplacedByOne(lines: Lines, d: Directive, x: string)
    requires d.start == d.end < |lines|
    ensures Replaced(lines, [d], x) == lines[d.start := x]
  {
    assert [d][..0] == [];
    SetOne(lines, d.start, x);
  }

  lemma {:induction false} ReplacedStep(lines: Lines, ds: seq<Directive>, d: Directive, x: string)
    ensures Replaced(lines, ds + [d], x) == SliceSet(Replaced(lines, ds, x), d.start, d.end + 1, [x])
  {
    assert (ds + [d])[..|ds|] == ds;
  }

  lemma RenamedStep(ds: seq<Directive>, n: nat, name: string, t: Token)
    requires n < |ds|
    ensures var d := ds[n];
            Renamed(ds[..n + 1], name, t) + ds[n + 1..] ==
            (Renamed(ds[..n], name, t) + ds[n..])[n := if IsDefine(name, d.token) then d.(token := t) else d]
  {
  }

  /** All definitions of a name are replaced, and nothing else changes. */
  lemma {:induction false} EditDefines(ks: seq<Lines>, n: nat, name: string, x: string, t: Token) returns (es: seq<Lines>)
    requires Plain(ks) && IsDirective(x, t) && n <= |Located(ks)|
    requires SingleLines(Filter(DefineOf(name), Located(ks)))
    ensures Plain(es) && (EndsCleanly(Flat(ks)) ==> EndsCleanly(Flat(es)))
    ensures Flat(es) == Replaced(Flat(ks), Filter(DefineOf(name), Located(ks)[..n]), x)
    ensures Located(es) == Renamed(Located(ks)[..n], name, t) + Located(ks)[n..]
    decreases n
  {
    hide Located, Flat, Plain, IsDirective, Filter, Replaced, SliceSet, Renamed, IsDefine, EndsCleanly;
    var ds, f := Located(ks), DefineOf(name);
    if n == 0 {
      es := ks;
      EditNoDefines(Flat(ks), ds, name, x, t);
    } else {
      var d := ds[n - 1];
      var fs := EditDefines(ks, n - 1, name, x, t);
      RenamedStep(ds, n - 1, name, t);
      RenamedLength(ds[..n - 1], name, t);
      assert ds[..n] == ds[..n - 1] + [d];
      FilterOfSum(f, ds[..n - 1], [d]);
      FilterOfOne(f, d);
      assert Located(fs)[n - 1] == d;
      if IsDefine(name, d.token) {
        DefineIsSingle(ds, name, n - 1);
        es := EditOne(fs, n - 1, x, t);
        ReplacedStep(Flat(ks), Filter(f, ds[..n - 1]), d, x);
        SetOne(Flat(fs), d.start, x);
      } else {
        es := fs;
        assert Located(fs)[n - 1 := d] == Located(fs);
        assert Filter(f, ds[..n - 1]) + [] == Filter(f, ds[..n - 1]);
      }
    }
  }

  lemma RenamedLength(ds: seq<Directive>, name: string, t: Token)
    ensures |Renamed(ds, name, t)| == |ds|
  {
  }

  lemma EditNoDefines(lines: Lines, ds: seq<Directive>, name: string, x: string, t: Token)
    ensures Replaced(lines, Filter(DefineOf(name), ds[..0]), x) == lines
    ensures Renamed(ds[..0], name, t) + ds[0..] == ds
  {
  }

  lemma {:induction false} DefineIsSingle(ds: seq<Directive>, name: string, k: nat)
    requires k < |ds| && IsDefine(name, ds[k].token) && SingleLines(Filter(DefineOf(name), ds))
    ensures ds[k].start == ds[k].end
    decreases |ds|
  {
    var n := |ds| - 1;
    var fs := Filter(DefineOf(name), ds[..n]);
    if k < n {
      assert forall i | 0 <= i < |fs| :: fs[i] == Filter(DefineOf(name), ds)[i];
      DefineIsSingle(ds[..n], name, k);
    } else {
      assert Filter(DefineOf(name), ds)[|fs|] == ds[n];
    }
  }

  // Adding a directive after another

  /** A line x holding directive t was put right after directive i. */
  ghost predicate IsAdded(ks: seq<Lines>, es: seq<Lines>, i: nat, x: string, t: Token)
    requires AreGroups(ks) && i < |Located(ks)|
  {
    var ds, at := Located(ks), Located(ks)[i].end + 1;
    && Plain(es) && at <= |Flat(ks)|
    && Flat(es) == Flat(ks)[..at] + [x] + Flat(ks)[at..]
    && |Located(es)| == |ds| + 1 && Located(es)[i] == ds[i] && Located(es)[i + 1] == Directive(t, at, at)
    && Bare(Located(es)) == Bare(ds)[..i + 1] + [t] + Bare(ds)[i + 1..]
  }

  lemma {:induction false} AddAfter(ks: seq<Lines>, i: nat, x: string, t: Token) returns (es: seq<Lines>)
    requires Plain(ks) && i < |Located(ks)| && IsDirective(x, t)
    ensures IsAdded(ks, es, i, x, t)
    decreases |ks|
  {
    hide Located, Flat, Plain, IsDirective, LastDirective, Bare, IsAdded;
    LocatedOfNone();
    var front, g := ks[..|ks| - 1], ks[|ks| - 1];
    assert ks == front + [g];
    PlainParts(front, g);
    PlainLocated(front, g);
    if i < |Located(front)| {
      var fs := AddAfter(front, i, x, t);
      es := fs + [g];
      AddedBefore(front, fs, g, i, x, t);
    } else {
      es := ks + [[x]];
      AddedLast(ks, x, t);
    }
  }

  lemma {:induction false} AddedBefore(front: seq<Lines>, fs: seq<Lines>, g: Lines, i: nat, x: string, t: Token)
    requires Plain(front) && i < |Located(front)| && IsAdded(front, fs, i, x, t)
    requires IsGroup(g) && !IsOnceGroup(g) && !Parse(Text(g)).Nameless?
    ensures AreGroups(front + [g]) && i < |Located(front + [g])| && IsAdded(front + [g], fs + [g], i, x, t)
  {
    hide Located, Flat, Plain, LastDirective, Bare, IsGroup, IsOnceGroup, Parse, Text;
    PlainLocated(front, g);
    PlainSum(fs, g);
    PlainLocated(fs, g);
    var a, b := LastDirective(|Flat(front)|, g), LastDirective(|Flat(fs)|, g);
    SameLast(|Flat(front)|, |Flat(fs)|, g);
    BareLength(Located(front));
    var at := Located(front)[i].end + 1;
    assert (Flat(front) + g)[..at] == Flat(front)[..at] && (Flat(front) + g)[at..] == Flat(front)[at..] + g;
    BareOfSum(Located(front), a);
    BareOfSum(Located(fs), b);
    InsertBefore(Bare(Located(front)), i + 1, t, Bare(a));
  }

  lemma {:induction false} AddedLast(ks: seq<Lines>, x: string, t: Token)
    requires Plain(ks) && Located(ks) != [] && IsDirective(x, t) && Located(ks)[|Located(ks)| - 1].end + 1 == |Flat(ks)|
    ensures IsAdded(ks, ks + [[x]], |Located(ks)| - 1, x, t)
  {
    hide Located, Flat, Plain, IsDirective, Bare;
    AddLast(ks, x, t);
    BareLength(Located(ks));
    var n := |Located(ks)|;
    assert Flat(ks)[..|Flat(ks)|] == Flat(ks) && Flat(ks)[|Flat(ks)|..] == [];
    assert Bare(Located(ks))[..n] == Bare(Located(ks)) && Bare(Located(ks))[n..] == [];
  }

  lemma BareLength(ds: seq<Directive>)
    ensures |Bare(ds)| == |ds|
  {
  }

  lemma InsertBefore(a: seq<Token>, k: nat, t: Token, b: seq<Token>)
    requires k <= |a|
    ensures (a + b)[..k] + [t] + (a + b)[k..] == a[..k] + [t] + a[k..] + b
  {
    assert (a + b)[..k] == a[..k] && (a + b)[k..] == a[k..] + b;
  }

  lemma SameLast(a: nat, b: nat, g: Lines)
    requires IsGroup(g)
    ensures Bare(LastDirective(a, g)) == Bare(LastDirective(b, g)) && |LastDirective(a, g)| == |LastDirective(b, g)|
  {
  }

  lemma {:induction false} AddLast(ks: seq<Lines>, x: string, t: Token)
    requires Plain(ks) && IsDirective(x, t)
    ensures Plain(ks + [[x]]) && Flat(ks + [[x]]) == Flat(ks) + [x]
    ensures Located(ks + [[x]]) == Located(ks) + [Directive(t, |Flat(ks)|, |Flat(ks)|)]
    ensures Bare(Located(ks + [[x]])) == Bare(Located(ks)) + [t]
  {
    hide Flat, Plain, Located, Parse, Text;
    SingleGroup(x);
    PlainSum(ks, [x]);
    PlainLocated(ks, [x]);
  }
}
