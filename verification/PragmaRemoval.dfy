/** Removing the #pragma once lines one after another at their recorded
    coordinates, and replacing single directives afterwards. */
module PragmaRemoval {
  import opened HeaderText
  import opened Splicing
  import opened Conditionals
  import opened GuardSearch
  import opened DirectiveScan

  function Min(a: nat, b: nat): nat {
    if a < b then a else b
  }

  /** Assignment to a slice: bounds past the end are clipped, and a slice that
      ends before it starts is empty. */
  function SliceSet(lines: Lines, from: nat, to: nat, new_: Lines): Lines {
    var a := Min(from, |lines|);
    var b := Min(to, |lines|);
    lines[..a] + new_ + lines[if a < b then b else a..]
  }

  function RemoveAll(lines: Lines, blocks: seq<Block>): Lines {
    if blocks == [] then lines
    else
      var b := blocks[|blocks| - 1];
      SliceSet(RemoveAll(lines, blocks[..|blocks| - 1]), b.open.start, b.close.end + 1, [])
  }

  // One group more

  lemma {:induction false} KeptAppend(gs: seq<Lines>, g: Lines)
    requires AreGroups(gs) && IsGroup(g)
    ensures AreGroups(gs + [g])
    ensures Kept(gs + [g]) == Kept(gs) + (if IsOnceGroup(g) then [] else [g])
  {
    hide IsOnceGroup, IsGroup;
    assert (gs + [g])[..|gs|] == gs;
  }

  lemma {:induction false} LocatedAppend(gs: seq<Lines>, g: Lines)
    requires AreGroups(gs) && IsGroup(g)
    ensures AreGroups(gs + [g])
    ensures Located(gs + [g]) == Located(gs) + (
                match Parse(Text(g))
                case Found(t) => [Directive(t, |Flat(Kept(gs))|, |Flat(Kept(gs))| + |g| - 1)]
                case _ => [])
  {
    hide Parse, Text, IsGroup, Kept, Flat;
    assert (gs + [g])[..|gs|] == gs;
  }

  lemma FrontAndLast(gs: seq<Lines>) returns (front: seq<Lines>, g: Lines)
    requires AreGroups(gs) && gs != []
    ensures front == gs[..|gs| - 1] && g == gs[|gs| - 1] && gs == front + [g] && AreGroups(front) && IsGroup(g)
  {
    front, g := gs[..|gs| - 1], gs[|gs| - 1];
  }

  predicate NotOnce(t: Token) {
    !IsOnce(t)
  }

  // Removal

  lemma RemoveLast(lines: Lines, ds: seq<Directive>, d: Directive)
    ensures RemoveAll(lines, AsBlocks(ds + [d])) == SliceSet(RemoveAll(lines, AsBlocks(ds)), d.start, d.end + 1, [])
  {
    assert AsBlocks(ds + [d])[..|ds|] == AsBlocks(ds);
  }

  lemma SpliceOut(a: Lines, g: Lines, b: Lines)
    ensures SliceSet(a + (g + b), |a|, |a| + |g|, []) == a + b
  {
    var s := a + (g + b);
    assert s[..|a|] == a && s[|a| + |g|..] == b;
  }

  /** Exactly the #pragma once lines go. */
  lemma {:induction false} RemovalRemovesPragmas(gs: seq<Lines>, rest: Lines)
    requires AreGroups(gs)
    ensures RemoveAll(Flat(gs) + rest, AsBlocks(Onces(Located(gs)))) == Flat(Kept(gs)) + rest
    decreases |gs|
  {
    assert Flat([]) == [] && Kept([]) == [] && Located([]) == [] && Onces([]) == [] && AsBlocks([]) == [];
    if gs != [] {
      var front, g := FrontAndLast(gs);
      RemovalOfLast(front, g, rest);
      RemovalRemovesPragmas(front, g + rest);
    }
  }

  lemma {:induction false} RemovalOfLast(front: seq<Lines>, g: Lines, rest: Lines)
    requires AreGroups(front) && IsGroup(g) && AreGroups(front + [g])
    ensures RemoveAll(Flat(front) + (g + rest), AsBlocks(Onces(Located(front)))) == Flat(Kept(front)) + (g + rest) ==>
              RemoveAll(Flat(front + [g]) + rest, AsBlocks(Onces(Located(front + [g])))) == Flat(Kept(front + [g])) + rest
  {
    hide Flat, Kept, Located, Filter, AsBlocks, RemoveAll, SliceSet, Parse, Text, IsOnce, IsGroup;
    KeptAppend(front, g);
    LocatedAppend(front, g);
    FlatStep(front, g);
    Regroup(Flat(front), g, rest);
    if IsOnceGroup(g) {
      GroupIsNotEmpty(g);
      var d := Directive(Parse(Text(g)).token, |Flat(Kept(front))|, |Flat(Kept(front))| + |g| - 1);
      FilterOfOne(IsOnce, d);
      FilterOfSum(IsOnce, Located(front), [d]);
      RemoveLast(Flat(front) + (g + rest), Onces(Located(front)), d);
      SpliceOut(Flat(Kept(front)), g, rest);
      assert Kept(front) + [] == Kept(front);
    } else {
      FlatStep(Kept(front), g);
      Regroup(Flat(Kept(front)), g, rest);
      OncesUnchanged(front, g);
    }
  }

  lemma {:induction false} OncesUnchanged(front: seq<Lines>, g: Lines)
    requires AreGroups(front) && IsGroup(g) && AreGroups(front + [g]) && !IsOnceGroup(g)
    ensures Onces(Located(front + [g])) == Onces(Located(front))
  {
    hide Flat, Kept, Located, Filter, Parse, Text, IsOnce, IsGroup;
    LocatedAppend(front, g);
    match Parse(Text(g))
    case Found(t) =>
      GroupIsNotEmpty(g);
      var d := Directive(t, |Flat(Kept(front))|, |Flat(Kept(front))| + |g| - 1);
      FilterOfOne(IsOnce, d);
      FilterOfSum(IsOnce, Located(front), [d]);
    case _ =>
      assert Located(front) + [] == Located(front);
  }

  /** The other directives keep their coordinates: they are those of a fresh scan. */
  lemma {:induction false} RestIsLocated(gs: seq<Lines>)
    requires AreGroups(gs)
    ensures Kept(Kept(gs)) == Kept(gs)
    ensures Located(Kept(gs)) == Filter(NotOnce, Located(gs))
    decreases |gs|
  {
    assert Kept([]) == [] && Located([]) == [] && Filter(NotOnce, []) == [];
    if gs != [] {
      var front, g := FrontAndLast(gs);
      RestIsLocated(front);
      RestOfLast(front, g);
    }
  }

  lemma {:induction false} RestOfLast(front: seq<Lines>, g: Lines)
    requires AreGroups(front) && IsGroup(g) && AreGroups(front + [g])
    requires Kept(Kept(front)) == Kept(front) && Located(Kept(front)) == Filter(NotOnce, Located(front))
    ensures Kept(Kept(front + [g])) == Kept(front + [g])
    ensures Located(Kept(front + [g])) == Filter(NotOnce, Located(front + [g]))
  {
    hide Flat, Kept, Located, Filter, Parse, Text, IsOnce, IsGroup;
    KeptAppend(front, g);
    LocatedAppend(front, g);
    if IsOnceGroup(g) {
      assert Kept(front) + [] == Kept(front);
    } else {
      KeptAppend(Kept(front), g);
      LocatedAppend(Kept(front), g);
    }
    match Parse(Text(g))
    case Found(t) =>
      GroupIsNotEmpty(g);
      var d := Directive(t, |Flat(Kept(front))|, |Flat(Kept(front))| + |g| - 1);
      FilterOfOne(NotOnce, d);
      FilterOfSum(NotOnce, Located(front), [d]);
      assert Filter(NotOnce, Located(front)) + [] == Filter(NotOnce, Located(front));
    case _ =>
      assert Located(front) + [] == Located(front) && Located(Kept(front)) + [] == Located(Kept(front));
  }

  // Recorded text

  /** The lines a directive is recorded at hold one of the groups, and it reads as recorded. */
  ghost predicate Names(lines: Lines, d: Directive, gs: seq<Lines>) {
    && d.start <= d.end < |lines|
    && IsGroup(lines[d.start..d.end + 1])
    && lines[d.start..d.end + 1] in gs
    && Parse(Text(lines[d.start..d.end + 1])) == Found(d.token)
  }

  lemma NamesMore(lines: Lines, d: Directive, gs: seq<Lines>, more: Lines, hs: seq<Lines>)
    requires Names(lines, d, gs) && forall g | g in gs :: g in hs
    ensures Names(lines + more, d, hs)
  {
    hide Parse, Text, IsGroup;
    SliceBefore(lines, more, d.start, d.end + 1);
  }

  lemma NamesLast(lines: Lines, d: Directive, gs: seq<Lines>, g: Lines)
    requires IsGroup(g) && Parse(Text(g)) == Found(d.token) && d.start == |lines| && d.end + 1 == |lines| + |g|
    ensures Names(lines + g, d, gs + [g])
  {
    GroupIsNotEmpty(g);
    hide Parse, Text, IsGroup;
    assert (lines + g)[d.start..d.end + 1] == g;
  }

  lemma LocatedOfNone()
    ensures Located([]) == []
  {
  }

  /** Without #pragma once, each directive is found at its coordinates. */
  lemma {:induction false} RecordedText(ks: seq<Lines>, j: nat)
    requires AreGroups(ks) && Kept(ks) == ks && j < |Located(ks)|
    ensures Names(Flat(ks), Located(ks)[j], ks)
    decreases |ks|
  {
    hide Flat, Kept, Located, Parse, Text, IsGroup, Names;
    LocatedOfNone();
    var front, g := FrontAndLast(ks);
    KeptFront(front, g);
    LocatedAppend(front, g);
    FlatStep(front, g);
    if j < |Located(front)| {
      RecordedText(front, j);
      NamesMore(Flat(front), Located(ks)[j], front, g, ks);
    } else {
      NamesLast(Flat(front), Located(ks)[j], front, g);
    }
  }

  lemma SliceBefore<T>(a: seq<T>, b: seq<T>, i: nat, j: nat)
    requires i <= j <= |a|
    ensures (a + b)[i..j] == a[i..j]
  {
  }

  lemma GroupIsNotEmpty(g: Lines)
    requires IsGroup(g)
    ensures g != []
  {
  }

  lemma {:induction false} KeptShrinks(gs: seq<Lines>)
    requires AreGroups(gs)
    ensures |Kept(gs)| <= |gs|
  {
    if gs != [] {
      KeptShrinks(gs[..|gs| - 1]);
    }
  }

  lemma {:induction false} KeptFront(front: seq<Lines>, g: Lines)
    requires AreGroups(front) && IsGroup(g) && AreGroups(front + [g]) && Kept(front + [g]) == front + [g]
    ensures Kept(front) == front && !IsOnceGroup(g)
  {
    hide Kept, IsOnceGroup, IsGroup;
    KeptAppend(front, g);
    KeptShrinks(front);
    assert (front + [g])[..|front|] == front;
  }

  /** The recorded coordinates of everything but #pragma once name its original
      text once the #pragma once lines have been removed in order. */
  lemma PragmasRemoved(lines: Lines, j: nat)
    ensures AreGroups(Tile(lines).groups)
    ensures RemoveAll(lines, AsBlocks(Onces(Located(Tile(lines).groups)))) == Remaining(lines)
    ensures j < |Filter(NotOnce, Located(Tile(lines).groups))| ==>
              Names(Remaining(lines), Filter(NotOnce, Located(Tile(lines).groups))[j], Tile(lines).groups)
  {
    hide Tile, Flat, Kept, Located, Filter, Parse, Text, IsGroup, RemoveAll, AsBlocks, Names;
    TileCovers(lines);
    var gs, rest := Tile(lines).groups, Tile(lines).pending;
    RemovalRemovesPragmas(gs, rest);
    RestIsLocated(gs);
    if j < |Filter(NotOnce, Located(gs))| {
      RecordedText(Kept(gs), j);
      forall g | g in Kept(gs)
        ensures g in gs
      {
        KeptAreGroups(gs, g);
      }
      NamesMore(Flat(Kept(gs)), Located(Kept(gs))[j], Kept(gs), rest, gs);
    }
  }

  lemma {:induction false} KeptAreGroups(gs: seq<Lines>, g: Lines)
    requires AreGroups(gs) && g in Kept(gs)
    ensures g in gs
  {
    if gs != [] && g in Kept(gs[..|gs| - 1]) {
      KeptAreGroups(gs[..|gs| - 1], g);
    }
  }

  /** The file without its #pragma once directives. */
  function Remaining(lines: Lines): Lines {
    TileCovers(lines);
    Flat(Kept(Tile(lines).groups)) + Tile(lines).pending
  }
}
