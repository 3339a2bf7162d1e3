/** Where a guard is added. */
module GuardLimits {
  import opened Common
  import opened HeaderText
  import opened Splicing
  import opened Conditionals
  import opened GuardSearch
  import opened DirectiveScan
  import opened PragmaRemoval
  import opened HeaderGuard
  import opened GuardSettled
  import opened GuardEdits
  import opened GuardIdempotence
  import opened GuardBreaks

  // The license

  /** What the scan sees of a group. */
  function LogicalLine(g: Lines): string
    requires IsGroup(g)
  {
    Strip(Text(g))
  }

  /** Group a is the first that begins a block comment, the groups after it up to
      m begin with a star, and group m does not. */
  ghost predicate IsLicense(gs: seq<Lines>, a: nat, m: nat)
    requires AreGroups(gs)
  {
    && a < m < |gs|
    && (forall k | 0 <= k < a :: !StartsWith(LogicalLine(gs[k]), "/*"))
    && StartsWith(LogicalLine(gs[a]), "/*")
    && (forall k | a < k < m :: StartsWith(LogicalLine(gs[k]), "*"))
    && !StartsWith(LogicalLine(gs[m]), "*")
  }

  /** The last line of the group after the license, or the first line of all. */
  ghost predicate IsPlace(gs: seq<Lines>, e: nat)
    requires AreGroups(gs)
  {
    || (exists a: nat, m: nat :: IsLicense(gs, a, m) && e + 1 == |Flat(gs[..m])| + |gs[m]|)
    || (e == 0 && forall a: nat, m: nat :: !IsLicense(gs, a, m))
  }

  lemma {:induction false} LicenseStep(gs: seq<Lines>, k: nat)
    requires AreGroups(gs) && k < |gs|
    ensures LicenseAfter(gs[..k + 1]) ==
            NextLicense(LicenseAfter(gs[..k]), LogicalLine(gs[k]), |Flat(gs[..k])| + |gs[k]| - 1)
  {
    hide Text, Strip, IsGroup, Flat;
    assert gs[..k + 1][..k] == gs[..k];
  }

  lemma {:induction false} NotSeenBefore(gs: seq<Lines>, k: nat)
    requires AreGroups(gs) && k <= |gs| && forall i | 0 <= i < k :: !StartsWith(LogicalLine(gs[i]), "/*")
    ensures LicenseAfter(gs[..k]) == NotSeen
  {
    hide Text, Strip, IsGroup, Flat, LogicalLine;
    if k > 0 {
      NotSeenBefore(gs, k - 1);
      LicenseStep(gs, k - 1);
    }
  }

  lemma {:induction false} ReadingAfter(gs: seq<Lines>, a: nat, k: nat)
    requires AreGroups(gs) && a < k <= |gs| && forall i | 0 <= i < a :: !StartsWith(LogicalLine(gs[i]), "/*")
    requires StartsWith(LogicalLine(gs[a]), "/*") && forall i | a < i < k :: StartsWith(LogicalLine(gs[i]), "*")
    ensures LicenseAfter(gs[..k]) == License.Reading
  {
    hide Text, Strip, IsGroup, Flat, LogicalLine, StartsWith;
    LicenseStep(gs, k - 1);
    if k == a + 1 {
      NotSeenBefore(gs, a);
    } else {
      ReadingAfter(gs, a, k - 1);
    }
  }

  lemma {:induction false} SeenAfter(gs: seq<Lines>, a: nat, m: nat, k: nat)
    requires AreGroups(gs) && IsLicense(gs, a, m) && m < k <= |gs|
    ensures LicenseAfter(gs[..k]) == Seen(|Flat(gs[..m])| + |gs[m]| - 1)
  {
    hide Text, Strip, IsGroup, Flat, LogicalLine, StartsWith;
    LicenseStep(gs, k - 1);
    if k == m + 1 {
      ReadingAfter(gs, a, m);
    } else {
      SeenAfter(gs, a, m, k - 1);
    }
  }

  lemma {:induction false} FirstStarts(gs: seq<Lines>, k: nat) returns (a: nat)
    requires AreGroups(gs) && k < |gs| && StartsWith(LogicalLine(gs[k]), "/*")
    ensures a <= k && StartsWith(LogicalLine(gs[a]), "/*") && forall i | 0 <= i < a :: !StartsWith(LogicalLine(gs[i]), "/*")
  {
    hide LogicalLine, StartsWith, IsGroup;
    if i :| 0 <= i < k && StartsWith(LogicalLine(gs[i]), "/*") {
      a := FirstStarts(gs, i);
    } else {
      a := k;
    }
  }

  lemma {:induction false} FirstOther(gs: seq<Lines>, a: nat, k: nat) returns (m: nat)
    requires AreGroups(gs) && a < k < |gs| && !StartsWith(LogicalLine(gs[k]), "*")
    requires StartsWith(LogicalLine(gs[a]), "/*") && forall i | 0 <= i < a :: !StartsWith(LogicalLine(gs[i]), "/*")
    ensures IsLicense(gs, a, m)
    decreases k
  {
    hide LogicalLine, StartsWith, IsGroup;
    if i :| a < i < k && !StartsWith(LogicalLine(gs[i]), "*") {
      m := FirstOther(gs, a, i);
    } else {
      m := k;
    }
  }

  /** Without one the scan records no end. */
  lemma {:induction false} NoLicenseNoEnd(gs: seq<Lines>)
    requires AreGroups(gs) && forall a: nat, m: nat :: !IsLicense(gs, a, m)
    ensures LicenseEnds(gs) == 0
  {
    hide LogicalLine, StartsWith, IsGroup, LicenseAfter;
    assert gs[..|gs|] == gs;
    if k :| 0 <= k < |gs| && StartsWith(LogicalLine(gs[k]), "/*") {
      var a := FirstStarts(gs, k);
      forall l | a < l < |gs|
        ensures StartsWith(LogicalLine(gs[l]), "*")
      {
        if !StartsWith(LogicalLine(gs[l]), "*") {
          var m := FirstOther(gs, a, l);
        }
      }
      ReadingAfter(gs, a, |gs|);
    } else {
      NotSeenBefore(gs, |gs|);
    }
  }

  /** The end of the license the scan records is that place. */
  lemma {:induction false} LicenseEndsAt(gs: seq<Lines>, e: nat)
    requires AreGroups(gs)
    ensures IsPlace(gs, e) <==> e == LicenseEnds(gs)
  {
    hide LogicalLine, IsGroup, LicenseEnds, IsLicense, Flat;
    if a: nat, m: nat :| IsLicense(gs, a, m) {
      forall b: nat, n: nat | IsLicense(gs, b, n)
        ensures n < |gs| && |Flat(gs[..n])| + |gs[n]| == LicenseEnds(gs) + 1
      {
        LicenseFits(gs, b, n);
      }
    } else {
      NoLicenseNoEnd(gs);
    }
  }

  lemma {:induction false} LicenseFits(gs: seq<Lines>, a: nat, m: nat)
    requires AreGroups(gs) && IsLicense(gs, a, m)
    ensures m < |gs| && |Flat(gs[..m])| + |gs[m]| == LicenseEnds(gs) + 1
  {
    hide LogicalLine, LicenseAfter, Flat;
    assert IsGroup(gs[m]);
    assert gs[..|gs|] == gs;
    SeenAfter(gs, a, m, |gs|);
  }

  /** An added guard begins right below the lines up to that place, which stay as
      they were once the #pragma once lines are gone. */
  lemma {:induction false} GuardGoesBelowTheLicense(lines: Lines, guard: string, o: Options, e: nat, out: Lines)
    requires AreGroups(Tile(lines).groups) && IsPlace(Tile(lines).groups, e)
    requires Fix(lines, guard, o).Done? && Fix(lines, guard, o).written == Some(out)
    requires ScanOf(Tile(lines).groups).Scanned? && RootOf(guard, ScanOf(Tile(lines).groups).tree).None?
    ensures e < |Remaining(lines)| && Remaining(lines)[..e] + ["", "#ifndef " + guard, "#define " + guard] <= out
    ensures Remaining(lines)[e..] <= out[e + 3..] || [""] + Remaining(lines)[e..] <= out[e + 3..]
  {
    hide Tile, ScanOf, Guards, Pragmas, RemoveAll, HasContent, Remaining, Alternate, IsPlace, Strip, RepairGuard, Closing, HasVimTrailer,
      LicenseEnds, NoOnceInside, Plain, Located, Kept, Balanced, Filter, Flatten, IsForest, AllNamed, Bare, Defines;
    var gs := Tile(lines).groups;
    WrittenMeansScanned(lines, guard, o);
    ScanSucceedsIff(gs);
    EmptyHasNoOnce();
    RestIsPlain(lines, guard);
    LicenseEndsAt(gs, e);
    var rest := Remaining(lines);
    assert out == Inserted(rest, guard, e, o.closingComment);
    InsertedStarts(rest, guard, e, o.closingComment);
  }

  lemma InsertedStarts(rest: Lines, guard: string, e: nat, comment: bool)
    requires e < |rest|
    ensures var out := Inserted(rest, guard, e, comment);
            && rest[..e] + ["", "#ifndef " + guard, "#define " + guard] <= out
            && (rest[e..] <= out[e + 3..] || [""] + rest[e..] <= out[e + 3..])
  {
    hide Strip, HasVimTrailer, Closing;
    var out, tail := Inserted(rest, guard, e, comment), rest[e..];
    var head := rest[..e] + ["", "#ifndef " + guard, "#define " + guard];
    assert Opened(rest, guard, e) == head + (if Strip(rest[e]) != "" then [""] else []) + tail;
    if Strip(rest[e]) != "" {
      assert out[e + 3..][..|tail| + 1] == [""] + tail;
    } else {
      assert out[e + 3..][..|tail|] == tail;
    }
  }

  /** The license ends, on a line of its own group, before any directive. */
  ghost predicate LicenseComesFirst(gs: seq<Lines>, m: nat)
    requires AreGroups(gs)
  {
    && m < |gs| && |gs[m]| == 1 && IsPlace(gs, |Flat(gs[..m])|)
    && forall k | 0 <= k < m :: Parse(Text(gs[k])) == NotDirective
  }

  lemma {:induction false} QuietGroups(gs: seq<Lines>)
    requires AreGroups(gs) && forall k | 0 <= k < |gs| :: Parse(Text(gs[k])) == NotDirective
    ensures Kept(gs) == gs && Located(gs) == []
    decreases |gs|
  {
    hide Parse, Text, IsGroup;
    if gs != [] {
      var front, g := FrontAndLast(gs);
      QuietGroups(front);
      KeptAppend(front, g);
      LocatedAppend(front, g);
    }
  }

  lemma {:induction false} KeptPrefix(gs: seq<Lines>, m: nat)
    requires AreGroups(gs) && m <= |gs|
    ensures Kept(gs[..m]) <= Kept(gs)
    decreases |gs|
  {
    if m < |gs| {
      KeptPrefix(gs[..|gs| - 1], m);
      assert gs[..|gs| - 1][..m] == gs[..m];
    } else {
      assert gs[..m] == gs;
    }
  }

  /** Then a guard is added at a clean place. */
  lemma {:induction false} LicenseFirstIsClean(lines: Lines, m: nat)
    requires AreGroups(Tile(lines).groups) && LicenseComesFirst(Tile(lines).groups, m)
    ensures IsCleanPlace(Remaining(lines), LicenseEnds(Tile(lines).groups))
  {
    hide Tile, Flat, Kept, Located, Parse, Text, IsGroup, LicenseEnds, IsPlace;
    var gs := Tile(lines).groups;
    TileCovers(lines);
    LicenseEndsAt(gs, |Flat(gs[..m])|);
    var head, ks := gs[..m], Kept(gs);
    QuietGroups(head);
    KeptPrefix(gs, m);
    assert ks == head + ks[|head|..];
    FlatOfSum(head, ks[|head|..]);
    var rest, at := Remaining(lines), |Flat(head)|;
    assert rest == Flat(head) + (Flat(ks[|head|..]) + Tile(lines).pending);
    assert rest[..at] == Flat(head);
    TileOfGroups(head);
    assert Bare([]) == [] && Depth([]) == 0;
  }
}
