/** Dry runs of a restore: when they list what an apply does. */
module RecoveryDryRuns {
  import opened Texts
  import opened Entities
  import opened Recovery
  import opened RecoveryProofs

  predicate OnePointEach(points: seq<Checkpoint>) {
    forall i, j | 0 <= i < j < |points| :: points[i].path != points[j].path
  }

  /** Two disks that look the same to the given restore points. */
  predicate SameFor(points: seq<Checkpoint>, a: Disk, b: Disk) {
    a.backups == b.backups
    && forall i | 0 <= i < |points| :: Lookup(a.files, points[i].path) == Lookup(b.files, points[i].path)
  }

  lemma JudgedAlike(a: Disk, b: Disk, p: Checkpoint, o: Options)
    requires a.backups == b.backups && Lookup(a.files, p.path) == Lookup(b.files, p.path)
    ensures var dry, wet := RestorePoint(a, p, o.(dryRun := true)), RestorePoint(b, p, o.(dryRun := false));
            && dry.actions == wet.actions && dry.disk == a && wet.disk.backups == b.backups
            && forall path | path != p.path :: Lookup(wet.disk.files, path) == Lookup(b.files, path)
  {
    assert Judge(a, p, o.(dryRun := true)) == Judge(b, p, o.(dryRun := false));
  }

  /** A dry run lists the actions of an apply when no path has two restore points. */
  lemma {:induction false} DryRunListsTheSame(points: seq<Checkpoint>, a: Disk, b: Disk, o: Options)
    requires OnePointEach(points) && SameFor(points, a, b)
    ensures RestoreAll(a, points, o.(dryRun := true)).actions == RestoreAll(b, points, o.(dryRun := false)).actions
    decreases |points|
  {
    if points != [] {
      var n := |points| - 1;
      var p := points[n];
      assert Lookup(a.files, p.path) == Lookup(b.files, p.path);
      JudgedAlike(a, b, p, o);
      var b' := RestorePoint(b, p, o.(dryRun := false)).disk;
      hide RestorePoint, Lookup;
      assert SameFor(points[..n], a, b');
      DryRunListsTheSame(points[..n], a, b', o);
    }
  }

  // ----- The dry run of an undo -----

  /** Why a write of a run is skipped: judged on the given files, or not at all. */
  function Skips(w: Write, files: Option<map<string, Bytes>>): Option<SkipReason> {
    if files.None? || Lookup(files.value, w.path) == Some(w.content) then None else Some(TargetChanged)
  }

  /** What a restore lists for the writes of a run, the latest first. */
  function Listed(d: Disk, steps: seq<Step>, files: Option<map<string, Bytes>>): seq<Action> {
    if steps == [] then []
    else
      var n := |steps| - 1;
      ListedFor(DiskAfter(d, steps[..n]), steps[n], files) + Listed(d, steps[..n], files)
  }

  function ListedFor(before: Disk, s: Step, files: Option<map<string, Bytes>>): seq<Action> {
    if s.Governed? then [Action(s.write.path, s.write.path in before.files, Skips(s.write, files))] else []
  }

  /** One restore point, on a disk that still has its backup. */
  lemma PointLists(runId: string, before: Disk, w: Write, now: Disk, o: Options)
    requires !o.force && Restorable(o, w.path)
    requires w.path in before.files ==>
               && BackupName(w.callId) in now.backups
               && now.backups[BackupName(w.callId)] == before.files[w.path]
    ensures var point := PointOf(runId, before, Governed(w), o.inside);
            && point.Some?
            && RestorePoint(now, point.value, o).actions == ListedFor(before, Governed(w), Some(now.files))
            && (o.dryRun ==> RestorePoint(now, point.value, o).disk == now)
  {
  }

  lemma SkipsAlike(before: Disk, s: Step, a: Option<map<string, Bytes>>, b: Option<map<string, Bytes>>)
    requires s.Governed? ==> Skips(s.write, a) == Skips(s.write, b)
    ensures ListedFor(before, s, a) == ListedFor(before, s, b)
  {
  }

  lemma ListLast(d: Disk, steps: seq<Step>, files: Option<map<string, Bytes>>)
    requires steps != []
    ensures var n := |steps| - 1;
            Listed(d, steps, files) ==
            ListedFor(DiskAfter(d, steps[..n]), steps[n], files) + Listed(d, steps[..n], files)
  {
  }

  /** The disk before the last step, as far as restoring that step's write gets there. */
  function Back(runId: string, d: Disk, steps: seq<Step>, now: Disk, o: Options): Disk
    requires steps != []
  {
    var n := |steps| - 1;
    var point := PointOf(runId, DiskAfter(d, steps[..n]), steps[n], o.inside);
    if point.Some? then RestorePoint(now, point.value, o).disk else now
  }

  /** One step of a restore of a run. */
  lemma ListStep(runId: string, d: Disk, steps: seq<Step>, now: Disk, o: Options, files: Option<map<string, Bytes>>)
    requires steps != [] && !o.force && Covered(steps, o) && KeepsBackups(d, steps, now.backups)
    requires var s := steps[|steps| - 1]; s.Governed? ==> Skips(s.write, files) == Skips(s.write, Some(now.files))
    ensures var n := |steps| - 1;
            RestoreAll(Back(runId, d, steps, now, o), PointsOf(runId, d, steps[..n], o.inside), o).actions ==
            Listed(d, steps[..n], files)
            ==> RestoreAll(now, PointsOf(runId, d, steps, o.inside), o).actions == Listed(d, steps, files)
  {
    var n := |steps| - 1;
    var s, before := steps[n], DiskAfter(d, steps[..n]);
    assert Backed(d, steps, now.backups, n);
    LastPoint(runId, d, steps, o.inside);
    ListLast(d, steps, files);
    var points := PointsOf(runId, d, steps[..n], o.inside);
    if s.Governed? {
      PointLists(runId, before, s.write, now, o);
      SkipsAlike(before, s, files, Some(now.files));
      hide KeepsBackups, RestorePoint, RestoreAll, PointOf, DiskAfter, PointsOf, Listed, ListedFor, Skips;
      RestoreLast(now, points, PointOf(runId, before, s, o.inside).value, o);
    } else {
      hide KeepsBackups, RestorePoint, RestoreAll, DiskAfter, PointsOf, Listed;
      assert ListedFor(before, s, files) + Listed(d, steps[..n], files) == Listed(d, steps[..n], files);
    }
  }

  lemma DryChangesNothing(runId: string, d: Disk, steps: seq<Step>, now: Disk, o: Options)
    requires steps != [] && o.dryRun
    ensures Back(runId, d, steps, now, o) == now
  {
    hide DiskAfter, PointOf;
  }

  lemma FewerCovered(steps: seq<Step>, o: Options)
    requires steps != []
    ensures Covered(steps, o) ==> Covered(steps[..|steps| - 1], o)
    ensures Untampered(steps) ==> Untampered(steps[..|steps| - 1]) && !steps[|steps| - 1].Edited?
  {
    assert forall i | 0 <= i < |steps| - 1 :: steps[..|steps| - 1][i] == steps[i];
  }

  /** A dry run judges every restore point on the files as they are. */
  lemma {:induction false} DryRunLists(runId: string, d: Disk, steps: seq<Step>, now: Disk, o: Options)
    requires o.dryRun && !o.force && Covered(steps, o) && KeepsBackups(d, steps, now.backups)
    ensures RestoreAll(now, PointsOf(runId, d, steps, o.inside), o).actions == Listed(d, steps, Some(now.files))
    decreases |steps|
  {
    if steps != [] {
      hide KeepsBackups, RestorePoint, RestoreAll, DiskAfter, PointsOf, Listed, Skips, Back, Covered;
      ListStep(runId, d, steps, now, o, Some(now.files));
      FewerBackups(d, steps, now.backups);
      FewerCovered(steps, o);
      DryChangesNothing(runId, d, steps, now, o);
      DryRunLists(runId, d, steps[..|steps| - 1], now, o);
    }
  }

  /** Restoring the last write of a run goes back one step. */
  lemma BackIsBefore(runId: string, d: Disk, steps: seq<Step>, now: Disk, o: Options)
    requires steps != [] && !o.dryRun && !o.force && Covered(steps, o) && Untampered(steps)
    requires KeepsBackups(d, steps, now.backups) && now.files == DiskAfter(d, steps).files
    ensures var back := Back(runId, d, steps, now, o);
            back.files == DiskAfter(d, steps[..|steps| - 1]).files && back.backups == now.backups
  {
    var n := |steps| - 1;
    var earlier := DiskAfter(d, steps[..n]);
    LastStep(d, steps);
    assert Backed(d, steps, now.backups, n);
    if steps[n].Governed? {
      var point := PointOf(runId, earlier, steps[n], o.inside);
      RestoreOneWrite(runId, earlier, steps[n].write, now, o, "");
      forall path
        ensures Lookup(RestorePoint(now, point.value, o).disk.files, path) == Lookup(earlier.files, path)
      {
        RestoreOneWrite(runId, earlier, steps[n].write, now, o, path);
        StepOnPath(earlier, steps[n], path);
      }
      hide RestorePoint, KeepsBackups, PointOf, DiskAfter;
      SameFiles(RestorePoint(now, point.value, o).disk.files, earlier.files);
    }
  }

  /** An apply judges each restore point on the files as they were when its write was done. */
  lemma {:induction false} ApplyLists(runId: string, d: Disk, steps: seq<Step>, now: Disk, o: Options)
    requires !o.dryRun && !o.force && Covered(steps, o) && Untampered(steps) && KeepsBackups(d, steps, now.backups)
    requires now.files == DiskAfter(d, steps).files
    ensures RestoreAll(now, PointsOf(runId, d, steps, o.inside), o).actions == Listed(d, steps, None)
    decreases |steps|
  {
    if steps != [] {
      JustWritten(d, steps, now.files);
      hide KeepsBackups, RestorePoint, RestoreAll, DiskAfter, PointsOf, Listed, Back, Covered, Untampered;
      ListStep(runId, d, steps, now, o, None);
      FewerBackups(d, steps, now.backups);
      FewerCovered(steps, o);
      BackIsBefore(runId, d, steps, now, o);
      ApplyLists(runId, d, steps[..|steps| - 1], Back(runId, d, steps, now, o), o);
    }
  }

  lemma JustWritten(d: Disk, steps: seq<Step>, files: map<string, Bytes>)
    requires steps != [] && files == DiskAfter(d, steps).files
    ensures var s := steps[|steps| - 1]; s.Governed? ==> Skips(s.write, Some(files)) == None
  {
    LastStep(d, steps);
  }

  predicate NoneSkipped(steps: seq<Step>, files: map<string, Bytes>) {
    forall i | 0 <= i < |steps| && steps[i].Governed? :: Skips(steps[i].write, Some(files)) == None
  }

  lemma {:induction false} ListsDiffer(d: Disk, steps: seq<Step>, files: map<string, Bytes>)
    ensures Listed(d, steps, Some(files)) == Listed(d, steps, None) <==> NoneSkipped(steps, files)
  {
    if steps != [] {
      var n := |steps| - 1;
      var s, before := steps[n], DiskAfter(d, steps[..n]);
      ListsDiffer(d, steps[..n], files);
      ListLast(d, steps, Some(files));
      ListLast(d, steps, None);
      NoneSkippedSplit(steps, files);
      hide Listed, DiskAfter, NoneSkipped;
      if s.Governed? {
        FirstDiffers(before, s, files, Listed(d, steps[..n], Some(files)), Listed(d, steps[..n], None));
      } else {
        assert ListedFor(before, s, Some(files)) == [] && ListedFor(before, s, None) == [];
        assert [] + Listed(d, steps[..n], Some(files)) == Listed(d, steps[..n], Some(files));
        assert [] + Listed(d, steps[..n], None) == Listed(d, steps[..n], None);
      }
    }
  }

  lemma FirstDiffers(before: Disk, s: Step, files: map<string, Bytes>, a: seq<Action>, b: seq<Action>)
    requires s.Governed?
    ensures ListedFor(before, s, Some(files)) + a == ListedFor(before, s, None) + b
            <==> Skips(s.write, Some(files)) == None && a == b
  {
    var x, y := ListedFor(before, s, Some(files)) + a, ListedFor(before, s, None) + b;
    assert x[1..] == a && y[1..] == b;
    assert x[0] == y[0] <==> Skips(s.write, Some(files)) == None;
    assert x == [x[0]] + x[1..] && y == [y[0]] + y[1..];
  }

  lemma NoneSkippedSplit(steps: seq<Step>, files: map<string, Bytes>)
    requires steps != []
    ensures var s := steps[|steps| - 1];
            NoneSkipped(steps, files) <==>
              && NoneSkipped(steps[..|steps| - 1], files)
              && (s.Governed? ==> Skips(s.write, Some(files)) == None)
  {
    hide Skips;
    var n := |steps| - 1;
    assert forall i | 0 <= i < n :: steps[..n][i] == steps[i];
  }

  /** No path was given two different contents. */
  predicate NoPathRewritten(steps: seq<Step>) {
    forall i, j | 0 <= i < j < |steps| && steps[i].Governed? && steps[j].Governed?
                  && steps[i].write.path == steps[j].write.path ::
      steps[i].write.content == steps[j].write.content
  }

  /** Every path a run wrote holds the last content written into it. */
  lemma NoneSkippedIff(d: Disk, steps: seq<Step>)
    requires Untampered(steps)
    ensures NoneSkipped(steps, DiskAfter(d, steps).files) <==> NoPathRewritten(steps)
  {
    var files := DiskAfter(d, steps).files;
    hide DiskAfter, Lookup;
    forall i | 0 <= i < |steps| && steps[i].Governed?
      ensures WroteInto(steps, steps[i].write.path, Lookup(files, steps[i].write.path))
    {
      HoldsLastWrite(d, steps, steps[i].write.path);
      assert Touches(steps, steps[i].write.path);
    }
    if NoPathRewritten(steps) {
      forall i | 0 <= i < |steps| && steps[i].Governed?
        ensures Skips(steps[i].write, Some(files)) == None
      {
        var path := steps[i].write.path;
        var k :| 0 <= k < |steps| && steps[k].Governed? && steps[k].write.path == path
                 && Lookup(files, path) == Some(steps[k].write.content);
        assert steps[k].write.content == steps[i].write.content;
      }
    }
    if NoneSkipped(steps, files) {
      forall i, j | 0 <= i < j < |steps| && steps[i].Governed? && steps[j].Governed?
                    && steps[i].write.path == steps[j].write.path
        ensures steps[i].write.content == steps[j].write.content
      {
        assert Skips(steps[i].write, Some(files)) == None && Skips(steps[j].write, Some(files)) == None;
      }
    }
  }

  /** Exactly when the dry run of an undo lists what the undo does: no path was given two
      different contents. */
  lemma DryRunIsExactIff(runId: string, d: Disk, steps: seq<Step>, o: Options)
    requires DistinctCalls(steps) && Untampered(steps) && Covered(steps, o) && !o.force
    ensures var now := DiskAfter(d, steps);
            var points := PointsOf(runId, d, steps, o.inside);
            RestoreAll(now, points, o.(dryRun := true)).actions == RestoreAll(now, points, o.(dryRun := false)).actions
            <==> NoPathRewritten(steps)
  {
    var now := DiskAfter(d, steps);
    assert Covered(steps, o.(dryRun := true)) && Covered(steps, o.(dryRun := false));
    hide RestoreAll, PointsOf, DiskAfter, KeepsBackups, Listed, NoneSkipped, NoPathRewritten, DistinctCalls, Covered;
    StepsKeepBackups(d, steps);
    DryRunLists(runId, d, steps, now, o.(dryRun := true));
    ApplyLists(runId, d, steps, now, o.(dryRun := false));
    ListsDiffer(d, steps, now.files);
    NoneSkippedIff(d, steps);
  }

  const BARE := Disk(map[], map[])
  const FIRST := Governed(Write("call_001", PATH, [1]))
  const SECOND := Governed(Write("call_002", PATH, [2]))
  const ONCE := Disk(map[PATH := [1]], map[])
  const TWICE := Disk(map[PATH := [2]], map[BackupName("call_002") := [1]])

  lemma TwoWrites()
    ensures After(BARE, FIRST) == ONCE && DiskAfter(BARE, [FIRST]) == ONCE
    ensures After(ONCE, SECOND) == TWICE && DiskAfter(BARE, [FIRST, SECOND]) == TWICE
  {
    assert ONCE.files[PATH := [2]] == TWICE.files;
    TwoSteps(BARE, FIRST, SECOND);
    hide After;
    assert [FIRST][..0] == [];
    assert DiskAfter(BARE, [FIRST]) == After(DiskAfter(BARE, []), FIRST);
  }

  lemma TwoListed(files: Option<map<string, Bytes>>)
    ensures Listed(BARE, [FIRST, SECOND], files) ==
            [Action(PATH, true, Skips(SECOND.write, files)), Action(PATH, false, Skips(FIRST.write, files))]
  {
    TwoWrites();
    ListLast(BARE, [FIRST, SECOND], files);
    ListLast(BARE, [FIRST], files);
    hide Skips;
    assert [FIRST, SECOND][..1] == [FIRST] && [FIRST][..0] == [];
    assert Listed(BARE, [], files) == [];
  }

  /** With two writes to one path a dry run announces a conflict that an apply does not meet. */
  lemma DryRunMisjudgesRepeatedWrites(o: Options)
    requires Restorable(o, PATH) && !o.force
    ensures var points := PointsOf("run", BARE, [FIRST, SECOND], o.inside);
            && RestoreAll(TWICE, points, o.(dryRun := true)).actions ==
               [Action(PATH, true, None), Action(PATH, false, Some(TargetChanged))]
            && RestoreAll(TWICE, points, o.(dryRun := false)).actions ==
               [Action(PATH, true, None), Action(PATH, false, None)]
            && DiskAfter(BARE, [FIRST, SECOND]) == TWICE
  {
    var steps := [FIRST, SECOND];
    TwoWrites();
    StepsKeepBackups(BARE, steps);
    TwoListed(Some(TWICE.files));
    TwoListed(None);
    hide RestoreAll, PointsOf, KeepsBackups, Listed, DiskAfter, After;
    DryRunLists("run", BARE, steps, TWICE, o.(dryRun := true));
    ApplyLists("run", BARE, steps, TWICE, o.(dryRun := false));
  }
}
