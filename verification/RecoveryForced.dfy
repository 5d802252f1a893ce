/** The verdict on a restore point, and restores forced past a conflict. */
module RecoveryForced {
  import opened Texts
  import opened Entities
  import opened Recovery
  import opened RecoveryProofs

  // ----- One restore point -----

  predicate NamesItsBackup(p: Checkpoint) { p.backupName == Some(BackupName(p.callId)) }

  predicate HasBackup(d: Disk, p: Checkpoint) { NamesItsBackup(p) && BackupName(p.callId) in d.backups }

  predicate BackupMatches(d: Disk, p: Checkpoint) {
    HasBackup(d, p) && p.backupDigest == Some(OfBytes(d.backups[BackupName(p.callId)]))
  }

  /** The file still holds what the governed write left. */
  predicate StillWritten(d: Disk, p: Checkpoint) {
    p.path in d.files && OfBytes(d.files[p.path]) == p.postDigest
  }

  /** What the verdict says of the disk, the restore point and the options. */
  predicate Verdict(d: Disk, p: Checkpoint, o: Options, reason: Option<SkipReason>) {
    && (reason == Some(EscapesRoot) <==> !o.inside(p.path))
    && (reason == Some(BackupEscapes) <==> o.inside(p.path) && p.existed && !NamesItsBackup(p))
    && (reason == Some(BackupUnavailable) <==>
          o.inside(p.path) && p.existed && NamesItsBackup(p) && !HasBackup(d, p))
    && (reason == Some(BackupMismatch) <==> o.inside(p.path) && p.existed && HasBackup(d, p) && !BackupMatches(d, p))
    && (reason == Some(TargetChanged) <==>
          o.inside(p.path) && (p.existed ==> BackupMatches(d, p)) && !o.force && !StillWritten(d, p))
    && (reason.None? <==>
          o.inside(p.path) && (p.existed ==> BackupMatches(d, p)) && (o.force || StillWritten(d, p)))
  }

  /** A point that is not selected is passed over; any other is listed with its verdict, and
      done exactly if there is nothing against it: its path, and nothing else, gets the backup,
      or is deleted if the write created it. */
  lemma PointIsJudged(d: Disk, p: Checkpoint, o: Options)
    ensures !o.selected(p.path) ==> RestorePoint(d, p, o) == Progress(d, [])
    ensures var r := RestorePoint(d, p, o);
            o.selected(p.path) ==>
              && |r.actions| == 1 && r.actions[0].path == p.path && r.actions[0].existed == p.existed
              && Verdict(d, p, o, r.actions[0].skipped)
              && (if r.actions[0].skipped.Some? || o.dryRun then r.disk == d
                  else
                    && r.disk.backups == d.backups
                    && (p.existed ==> BackupMatches(d, p))
                    && Lookup(r.disk.files, p.path) ==
                       (if p.existed then Some(d.backups[BackupName(p.callId)]) else None)
                    && forall path | path != p.path :: Lookup(r.disk.files, path) == Lookup(d.files, path))
  {
  }

  /** The event recorded for a point says what was done with it. */
  lemma EventSaysWhatWasDone(d: Disk, p: Checkpoint, o: Options)
    requires o.selected(p.path)
    ensures var r := RestorePoint(d, p, o);
            |r.actions| == 1 &&
            var kind := RestoreKind(r.actions[0], o.dryRun);
            var fits := o.inside(p.path) && (p.existed ==> BackupMatches(d, p));
            && (kind == "restore_applied" <==> fits && (o.force || StillWritten(d, p)) && !o.dryRun)
            && (kind == "restore_preview" <==> fits && (o.force || StillWritten(d, p)) && o.dryRun)
            && (kind == "restore_conflict" <==> fits && !o.force && !StillWritten(d, p))
            && (kind == "restore_skipped" <==> !fits)
  {
    PointIsJudged(d, p, o);
    KindsDiffer();
    hide RestorePoint, BackupMatches, StillWritten, HasBackup;
  }

  lemma KindsDiffer()
    ensures "restore_applied" != "restore_preview" && "restore_applied" != "restore_conflict"
    ensures "restore_applied" != "restore_skipped" && "restore_preview" != "restore_conflict"
    ensures "restore_preview" != "restore_skipped" && "restore_conflict" != "restore_skipped"
  {
    assert |"restore_applied"| == 15 && |"restore_conflict"| == 16 && |"restore_preview"| == 15;
    assert "restore_applied"[8] == 'a' && "restore_preview"[8] == 'p' && "restore_skipped"[8] == 's';
  }

  // ----- All of them -----

  /** The selected points, the latest first. */
  function Chosen(points: seq<Checkpoint>, o: Options): seq<Checkpoint> {
    if points == [] then []
    else
      var n := |points| - 1;
      (if o.selected(points[n].path) then [points[n]] else []) + Chosen(points[..n], o)
  }

  /** A restore, dry or not, forced or not, lists the selected points, one action each. */
  lemma {:induction false} ListsTheChosen(d: Disk, points: seq<Checkpoint>, o: Options)
    ensures var actions, chosen := RestoreAll(d, points, o).actions, Chosen(points, o);
            && |actions| == |chosen|
            && forall i | 0 <= i < |chosen| ::
                 actions[i].path == chosen[i].path && actions[i].existed == chosen[i].existed
    decreases |points|
  {
    if points != [] {
      var n := |points| - 1;
      PointIsJudged(d, points[n], o);
      hide RestorePoint, Verdict, BackupMatches, Lookup;
      ListsTheChosen(RestorePoint(d, points[n], o).disk, points[..n], o);
    }
  }

  /** What is not selected, or lies outside the project, is not touched, by force either. */
  lemma {:induction false} UnrestorableIsUntouched(d: Disk, points: seq<Checkpoint>, o: Options, path: string)
    requires !Restorable(o, path)
    ensures Lookup(RestoreAll(d, points, o).disk.files, path) == Lookup(d.files, path)
    decreases |points|
  {
    if points != [] {
      var n := |points| - 1;
      var next := RestorePoint(d, points[n], o).disk;
      PointIsJudged(d, points[n], o);
      assert Lookup(next.files, path) == Lookup(d.files, path);
      hide RestorePoint, Verdict, BackupMatches, Lookup;
      UnrestorableIsUntouched(next, points[..n], o, path);
    }
  }

  // ----- Forced -----

  predicate Writes(s: Step, path: string) { s.Governed? && s.write.path == path }

  /** The position of the first governed write into the path; the end if there is none. */
  function FirstWrite(steps: seq<Step>, path: string): (k: nat)
    ensures k <= |steps|
    ensures forall i | 0 <= i < k :: !Writes(steps[i], path)
    ensures k < |steps| ==> Writes(steps[k], path)
  {
    if steps == [] then 0
    else
      var n := |steps| - 1;
      var k := FirstWrite(steps[..n], path);
      if k < n || Writes(steps[n], path) then k else n + 1
  }

  /** Undoing one governed write by force, seen from one path. */
  lemma ForcedOneWrite(runId: string, earlier: Disk, w: Write, now: Disk, o: Options, path: string)
    requires !o.dryRun && o.force
    requires w.path in earlier.files ==>
               && BackupName(w.callId) in now.backups
               && now.backups[BackupName(w.callId)] == earlier.files[w.path]
    ensures var point := PointOf(runId, earlier, Governed(w), o.inside);
            && (point.Some? <==> o.inside(w.path))
            && (point.Some? ==>
                  var r := RestorePoint(now, point.value, o);
                  && r.disk.backups == now.backups
                  && (forall action | action in r.actions :: action.skipped.None?)
                  && Lookup(r.disk.files, path) ==
                     if path == w.path && o.selected(path) then Lookup(earlier.files, path)
                     else Lookup(now.files, path))
  {
  }

  /** A forced restore on a disk that still has the backups, whatever stands in the files: each
      path the run wrote goes back to what it held before the first of those writes, nothing
      else is touched, and no point is skipped. */
  lemma {:induction false} ForcedRestoreRewinds(runId: string, d: Disk, steps: seq<Step>, now: Disk, o: Options,
                                                path: string)
    requires !o.dryRun && o.force && KeepsBackups(d, steps, now.backups)
    ensures var r := RestoreAll(now, PointsOf(runId, d, steps, o.inside), o);
            var k := FirstWrite(steps, path);
            && r.disk.backups == now.backups
            && (forall action | action in r.actions :: action.skipped.None?)
            && Lookup(r.disk.files, path) ==
               if Restorable(o, path) && k < |steps| then Lookup(DiskAfter(d, steps[..k]).files, path)
               else Lookup(now.files, path)
    decreases |steps|
  {
    if steps != [] {
      var n := |steps| - 1;
      var earlier, shorter := DiskAfter(d, steps[..n]), steps[..n];
      var point := PointOf(runId, earlier, steps[n], o.inside);
      var k := FirstWrite(shorter, path);
      assert shorter[..k] == steps[..k];
      assert Backed(d, steps, now.backups, n);
      if steps[n].Governed? {
        ForcedOneWrite(runId, earlier, steps[n].write, now, o, path);
      }
      LastPoint(runId, d, steps, o.inside);
      FewerBackups(d, steps, now.backups);
      FirstOfMore(steps, path);
      hide KeepsBackups, RestorePoint, PointsOf, PointOf, DiskAfter, Lookup, RestoreAll, FirstWrite;
      if point.Some? {
        RestoreLast(now, PointsOf(runId, d, shorter, o.inside), point.value, o);
        ForcedRestoreRewinds(runId, d, shorter, RestorePoint(now, point.value, o).disk, o, path);
      } else {
        ForcedRestoreRewinds(runId, d, shorter, now, o, path);
      }
    }
  }

  lemma FirstOfMore(steps: seq<Step>, path: string)
    requires steps != []
    ensures var n := |steps| - 1;
            var k := FirstWrite(steps[..n], path);
            FirstWrite(steps, path) == if k < n then k else if Writes(steps[n], path) then n else n + 1
  {
  }

  /** On the disk of a run itself, whatever was edited in between and since: every file the run
      wrote is as it was before its first write there. */
  lemma ForcedRestoreOfARun(runId: string, d: Disk, steps: seq<Step>, files: map<string, Bytes>, o: Options,
                            path: string)
    requires DistinctCalls(steps) && Covered(steps, o) && !o.dryRun && o.force
    ensures var now := DiskAfter(d, steps).(files := files);
            var r := RestoreAll(now, PointsOf(runId, d, steps, o.inside), o);
            var k := FirstWrite(steps, path);
            && (forall action | action in r.actions :: action.skipped.None?)
            && Lookup(r.disk.files, path) ==
               if k < |steps| then Lookup(DiskAfter(d, steps[..k]).files, path) else Lookup(files, path)
  {
    var now := DiskAfter(d, steps).(files := files);
    StepsKeepBackups(d, steps);
    hide KeepsBackups, RestoreAll, PointsOf, DiskAfter, Lookup, FirstWrite;
    ForcedRestoreRewinds(runId, d, steps, now, o, path);
  }
}
