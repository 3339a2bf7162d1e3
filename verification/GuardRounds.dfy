/** Running the fixer again on what it wrote. */
module GuardRounds {
  import opened Common
  import opened HeaderText
  import opened Splicing
  import opened Conditionals
  import opened GuardSearch
  import opened DirectiveScan
  import opened PragmaRemoval
  import opened HeaderGuard
  import opened GuardSettled
  import opened GuardEdits
  import opened GuardIdempotence
  import opened GuardBreaks
  import opened GuardSurvival

  lemma {:induction false} TrailerFails(lines: Lines, guard: string, o: Options, out: Lines)
    requires IsName(guard) && o.inplace && IsRegular(lines, guard, o)
    requires ScanOf(Tile(lines).groups).Scanned? && |Guards(guard, ScanOf(Tile(lines).groups).tree)| <= 1
    requires RootOf(guard, ScanOf(Tile(lines).groups).tree).None? && HasVimTrailer(Remaining(lines))
    requires Fix(lines, guard, o).Done? && Fix(lines, guard, o).written == Some(out)
    ensures !Passes(Fix(Trimmed(out), guard, o.(inplace := false)))
  {
    hide Tile, ScanOf, Guards, Fix, Remaining, EndsCleanly, NoOnceInside, IsCleanPlace, IsRepairable, Alternate, HasVimTrailer, Trimmed;
    TrailerBreaksTheGuard(lines, guard, o, o.(inplace := false));
  }

  lemma {:induction false} LostLineFails(lines: Lines, guard: string, o: Options, out: Lines, b: Block)
    requires IsName(guard) && o.inplace && IsRegular(lines, guard, o)
    requires ScanOf(Tile(lines).groups).Scanned? && |Guards(guard, ScanOf(Tile(lines).groups).tree)| <= 1
    requires RootOf(guard, ScanOf(Tile(lines).groups).tree) == Some(b) && LosesALine(guard, o, b, Located(Tile(lines).groups))
    requires Fix(lines, guard, o).Done? && Fix(lines, guard, o).written == Some(out)
    ensures !Passes(Fix(Trimmed(out), guard, o.(inplace := false)))
  {
    hide Tile, ScanOf, Located, Filter, Guards, Pragmas, Count, Bare, Flat, Kept, Plain, Balanced, EndsCleanly, RepairGuard, Trimmed, Passes,
      Repaired, RemoveAll, Remaining, IsBase, NoOnceInside, Alternate, AllNamed, Flatten, IsForest, Defines, ReplacesEndif, SingleLines, Word;
    var gs := Tile(lines).groups;
    ScanSucceedsIff(gs);
    RestIsPlain(lines, guard);
    RemainingIsFlat(lines);
    var i, j := RootIsBase(lines, guard, b);
    var name := Word(b.open.token.args.value);
    BaseBounds(Located(Kept(gs)), guard, i, j);
    RepairWrites(Remaining(lines), guard, o, b, Located(gs), Pragmas(guard, ScanOf(gs).tree) != []);
    UndefinedGuardBreaks(Kept(gs), guard, o, b, name, i, j);
  }

  /** What was written for a regular header lasts exactly if no editor trailer
      follows an added guard and no #endif was rewritten after a definition was
      put in; otherwise a check rejects it. */
  lemma {:induction false} LastsIff(lines: Lines, guard: string, o: Options, out: Lines)
    requires IsName(guard) && o.inplace && IsRegular(lines, guard, o)
    requires Fix(lines, guard, o).Done? && Fix(lines, guard, o).written == Some(out)
    ensures Lasts(out, guard, o) <==> Settles(lines, guard, o)
    ensures Passes(Fix(Trimmed(out), guard, o.(inplace := false))) <==> Settles(lines, guard, o)
  {
    hide Tile, ScanOf, Guards, Fix, Lasts, Remaining, Located, EndsCleanly, NoOnceInside, IsCleanPlace, IsRepairable, Alternate, Trimmed,
      HasVimTrailer, LosesALine;
    WrittenMeansScanned(lines, guard, o);
    var p := o.(inplace := false);
    if Settles(lines, guard, o) {
      RegularLasts(lines, guard, o, out);
    } else {
      match RootOf(guard, ScanOf(Tile(lines).groups).tree) {
        case None => TrailerFails(lines, guard, o, out);
        case Some(b) => LostLineFails(lines, guard, o, out, b);
      }
    }
    if Lasts(out, guard, o) {
      UseLasts(out, guard, o, p);
    }
  }

  /** After a run in place that writes a regular header every line that is not
      the guard's is still there.  The header read back then has a correct guard,
      so that a second run in place reports that and writes the same text, and a
      run that only checks passes; or, in the two cases that do not settle, it is
      rejected. */
  lemma {:induction false} FixIsIdempotent(lines: Lines, guard: string, o: Options)
    requires IsName(guard) && o.inplace && AreLines(lines) && IsRegular(lines, guard, o)
    requires Fix(lines, guard, o).Done? && Fix(lines, guard, o).written.Some?
    ensures var out := Fix(lines, guard, o).written.value;
            var again, check := SplitLines(Written(out)), o.(inplace := false);
            && (NoLineIsLost(lines, guard, o) ==> OthersSurvive(lines, guard, out))
            && if Settles(lines, guard, o) then
                 && Fix(again, guard, o) == Done(Ok, [FoundCorrectGuard], Some(again)) && Written(again) == Written(out)
                 && Fix(again, guard, check) == Done(Ok, [FoundCorrectGuard], None)
               else !Passes(Fix(again, guard, check))
  {
    var out := Fix(lines, guard, o).written.value;
    hide *;
    RegularGroups(lines, guard, o);
    if NoLineIsLost(lines, guard, o) {
      LinesSurvive(lines, guard, o, out);
    }
    LastsIff(lines, guard, o, out);
    WrittenAreLines(lines, guard, o);
    TwiceWritten(out);
    if Settles(lines, guard, o) {
      UseLasts(out, guard, o, o);
      UseLasts(out, guard, o, o.(inplace := false));
    }
  }

  lemma RegularGroups(lines: Lines, guard: string, o: Options)
    requires IsRegular(lines, guard, o)
    ensures AreGroups(Tile(lines).groups)
  {
    TileCovers(lines);
  }

  // A run that reports no problem

  /** What a run in place leaves behind, as the next run reads it. */
  function Next(lines: Lines, guard: string, o: Options): Lines {
    match Fix(lines, guard, o)
    case Done(_, _, Some(out)) => SplitLines(Written(out))
    case _ => lines
  }

  /** There is a #pragma once and no guard, and nothing to guard. */
  predicate IsLonelyPragma(lines: Lines, guard: string)
    requires AreGroups(Tile(lines).groups)
  {
    var scan := ScanOf(Tile(lines).groups);
    && scan.Scanned? && |Guards(guard, scan.tree)| <= 1 && RootOf(guard, scan.tree).None? && Pragmas(guard, scan.tree) != []
    && !HasContent(RemoveAll(lines, Pragmas(guard, scan.tree)), scan.tree, 0, scan.licenseEnds)
  }

  lemma {:induction false} NothingWritten(lines: Lines, guard: string, o: Options)
    requires AreGroups(Tile(lines).groups) && o.inplace && Passes(Fix(lines, guard, o)) && Fix(lines, guard, o).written.None?
    ensures Passes(Fix(lines, guard, o.(inplace := false))) <==> !IsLonelyPragma(lines, guard)
  {
    hide Tile, ScanOf, Guards, Pragmas, RemoveAll, HasContent, Alternate, SliceSet, GuardReplaced, WrongComment, Inserted, Defining,
      IfndefArgument;
  }

  lemma {:induction false} LonelyPragmaPasses(lines: Lines, guard: string, o: Options)
    requires AreGroups(Tile(lines).groups) && o.inplace && IsLonelyPragma(lines, guard)
    ensures Fix(lines, guard, o) == Done(Ok, [NoContent], None)
  {
    hide Tile, ScanOf, Guards, Pragmas, RemoveAll, HasContent, Alternate, RepairGuard;
  }

  /** A run in place that reports no problem on a regular header leaves one that
      a check rejects exactly if there is a lonely #pragma once, which stays, or
      what was written does not settle. */
  lemma {:induction false} OkThenRejectedIff(lines: Lines, guard: string, o: Options)
    requires IsName(guard) && o.inplace && AreLines(lines) && IsRegular(lines, guard, o)
    ensures Passes(Fix(lines, guard, o)) && !Passes(Fix(Next(lines, guard, o), guard, o.(inplace := false))) <==>
            || IsLonelyPragma(lines, guard)
            || (Fix(lines, guard, o).Done? && Fix(lines, guard, o).written.Some? && !Settles(lines, guard, o))
  {
    hide Fix, SplitLines, Written, Settles, IsLonelyPragma, OthersSurvive, NoLineIsLost, IsRegular, Tile;
    RegularGroups(lines, guard, o);
    if IsLonelyPragma(lines, guard) {
      LonelyPragmaPasses(lines, guard, o);
    }
    var first := Fix(lines, guard, o);
    if first.Done? {
      if first.written.Some? {
        FixIsIdempotent(lines, guard, o);
        WritingPasses(lines, guard, o);
      } else if first.verdict == Ok {
        NothingWritten(lines, guard, o);
      }
    }
  }

  lemma WritingPasses(lines: Lines, guard: string, o: Options)
    requires Fix(lines, guard, o).Done? && Fix(lines, guard, o).written.Some?
    ensures Passes(Fix(lines, guard, o))
  {
    hide Tile, ScanOf, Guards, Pragmas, RemoveAll, HasContent, Alternate, SliceSet, GuardReplaced, WrongComment, Inserted, Defining,
      IfndefArgument;
  }
}
