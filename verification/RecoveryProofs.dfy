/** What a restore leaves in the files, whatever happened to them during the run and since. */
module RecoveryProofs {
  import opened Texts
  import opened Entities
  import opened Recovery

  // ----- Content the run did not write -----

  /** The file holds what some restore point of it recorded. */
  predicate Recorded(points: seq<Checkpoint>, d: Disk, path: string) {
    exists i | 0 <= i < |points| ::
      points[i].path == path && path in d.files && OfBytes(d.files[path]) == points[i].postDigest
  }

  lemma PointLeavesAlone(d: Disk, p: Checkpoint, o: Options, path: string)
    requires !o.force && !(p.path == path && path in d.files && OfBytes(d.files[path]) == p.postDigest)
    ensures Lookup(RestorePoint(d, p, o).disk.files, path) == Lookup(d.files, path)
  {
  }

  lemma SameContentSameRecord(points: seq<Checkpoint>, d: Disk, e: Disk, path: string)
    requires Lookup(d.files, path) == Lookup(e.files, path)
    ensures Recorded(points, d, path) <==> Recorded(points, e, path)
  {
  }

  lemma RecordedShorter(points: seq<Checkpoint>, d: Disk, path: string)
    requires points != []
    ensures Recorded(points[..|points| - 1], d, path) ==> Recorded(points, d, path)
  {
    assert forall i | 0 <= i < |points| - 1 :: points[i] == points[..|points| - 1][i];
  }

  /** For any restore points on any disk: an unforced restore never touches a file whose
      content no restore point of it recorded. */
  lemma {:induction false} UnrecordedIsUntouched(d: Disk, points: seq<Checkpoint>, o: Options, path: string)
    requires !o.force && !Recorded(points, d, path)
    ensures Lookup(RestoreAll(d, points, o).disk.files, path) == Lookup(d.files, path)
    decreases |points|
  {
    if points != [] {
      var n := |points| - 1;
      var next := RestorePoint(d, points[n], o).disk;
      assert !(points[n].path == path && path in d.files && OfBytes(d.files[path]) == points[n].postDigest);
      PointLeavesAlone(d, points[n], o, path);
      RecordedShorter(points, d, path);
      SameContentSameRecord(points[..n], d, next, path);
      hide RestorePoint, Recorded, Lookup;
      UnrecordedIsUntouched(next, points[..n], o, path);
    }
  }

  // ----- Backups -----

  function CallOf(s: Step): Option<string> {
    match s
    case Governed(w) => Some(w.callId)
    case Attempted(callId, _) => Some(callId)
    case Edited(_, _) => None
  }

  predicate DistinctCalls(steps: seq<Step>) {
    forall i, j | 0 <= i < j < |steps| && CallOf(steps[i]).Some? :: CallOf(steps[i]) != CallOf(steps[j])
  }

  lemma BackupNamesDiffer(a: string, b: string)
    ensures BackupName(a) == BackupName(b) ==> a == b
  {
    assert BackupName(a)[..|BackupName(a)| - 4] == a;
    assert BackupName(b)[..|BackupName(b)| - 4] == b;
  }

  /** The backup of the i-th step, if it is a governed write over a file. */
  predicate Backed(d: Disk, steps: seq<Step>, backups: map<string, Bytes>, i: nat)
    requires i < |steps|
  {
    steps[i].Governed? ==>
      var w, before := steps[i].write, DiskAfter(d, steps[..i]).files;
      w.path in before ==> BackupName(w.callId) in backups && backups[BackupName(w.callId)] == before[w.path]
  }

  /** The backups a disk must still hold: for each governed write, what was there before it. */
  predicate KeepsBackups(d: Disk, steps: seq<Step>, backups: map<string, Bytes>) {
    forall i | 0 <= i < |steps| :: Backed(d, steps, backups, i)
  }

  lemma BackupStays(d: Disk, s: Step, name: string)
    requires CallOf(s).Some? ==> BackupName(CallOf(s).value) != name
    ensures name in After(d, s).backups <==> name in d.backups
    ensures name in d.backups ==> After(d, s).backups[name] == d.backups[name]
  {
  }

  lemma BackupMade(d: Disk, w: Write)
    ensures w.path in d.files ==>
              && BackupName(w.callId) in After(d, Governed(w)).backups
              && After(d, Governed(w)).backups[BackupName(w.callId)] == d.files[w.path]
  {
  }

  /** A run leaves all its backups, as its call ids are distinct. */
  lemma {:induction false} StepsKeepBackups(d: Disk, steps: seq<Step>)
    requires DistinctCalls(steps)
    ensures KeepsBackups(d, steps, DiskAfter(d, steps).backups)
  {
    if steps != [] {
      var n := |steps| - 1;
      var shorter, before := steps[..n], DiskAfter(d, steps[..n]);
      StepsKeepBackups(d, shorter);
      hide BackupName, After, DiskAfter;
      assert DiskAfter(d, steps) == After(before, steps[n]) by { LastStep(d, steps); }
      forall i | 0 <= i < |steps|
        ensures Backed(d, steps, After(before, steps[n]).backups, i)
      {
        if i < n {
          assert shorter[..i] == steps[..i] && shorter[i] == steps[i];
          assert Backed(d, shorter, before.backups, i);
          if steps[i].Governed? {
            var name := BackupName(steps[i].write.callId);
            assert CallOf(steps[i]).Some?;
            if CallOf(steps[n]).Some? {
              BackupNamesDiffer(CallOf(steps[n]).value, steps[i].write.callId);
            }
            BackupStays(before, steps[n], name);
          }
        } else if steps[n].Governed? {
          BackupMade(before, steps[n].write);
        }
      }
    }
  }

  lemma LastStep(d: Disk, steps: seq<Step>)
    requires steps != []
    ensures DiskAfter(d, steps) == After(DiskAfter(d, steps[..|steps| - 1]), steps[|steps| - 1])
  {
  }

  lemma FewerBackups(d: Disk, steps: seq<Step>, backups: map<string, Bytes>)
    requires steps != [] && KeepsBackups(d, steps, backups)
    ensures KeepsBackups(d, steps[..|steps| - 1], backups)
  {
    hide DiskAfter, BackupName;
    var shorter := steps[..|steps| - 1];
    forall i | 0 <= i < |shorter|
      ensures Backed(d, shorter, backups, i)
    {
      assert shorter[..i] == steps[..i] && shorter[i] == steps[i];
      assert Backed(d, steps, backups, i);
    }
  }

  // ----- What a restore leaves -----

  /** What becomes of content c of a path when the run is undone: each governed write that put
      it there, the last first, gives way to what was there before. */
  function Undone(d: Disk, steps: seq<Step>, path: string, c: Option<Bytes>): Option<Bytes> {
    if steps == [] then c
    else
      var n := |steps| - 1;
      var s := steps[n];
      var undoes := s.Governed? && s.write.path == path && c == Some(s.write.content);
      Undone(d, steps[..n], path, if undoes then Lookup(DiskAfter(d, steps[..n]).files, path) else c)
  }

  /** Undoing one governed write, seen from one path. */
  lemma RestoreOneWrite(runId: string, earlier: Disk, w: Write, now: Disk, o: Options, path: string)
    requires !o.dryRun && !o.force
    requires w.path in earlier.files ==>
               && BackupName(w.callId) in now.backups
               && now.backups[BackupName(w.callId)] == earlier.files[w.path]
    ensures var point := PointOf(runId, earlier, Governed(w), o.inside);
            && (point.Some? <==> o.inside(w.path))
            && (point.Some? ==>
                  var after := RestorePoint(now, point.value, o).disk;
                  && after.backups == now.backups
                  && Lookup(after.files, path) ==
                     if path == w.path && o.selected(path) && Lookup(now.files, path) == Some(w.content)
                     then Lookup(earlier.files, path) else Lookup(now.files, path))
  {
  }

  lemma LastPoint(runId: string, d: Disk, steps: seq<Step>, inside: string -> bool)
    requires steps != []
    ensures var n := |steps| - 1;
            var point := PointOf(runId, DiskAfter(d, steps[..n]), steps[n], inside);
            PointsOf(runId, d, steps, inside) ==
            if point.Some? then PointsOf(runId, d, steps[..n], inside) + [point.value]
            else PointsOf(runId, d, steps[..n], inside)
  {
    hide PointOf, DiskAfter;
    var n := |steps| - 1;
    assert PointsOf(runId, d, steps[..n], inside) + [] == PointsOf(runId, d, steps[..n], inside);
  }

  lemma RestoreLast(now: Disk, points: seq<Checkpoint>, p: Checkpoint, o: Options)
    ensures var last := RestorePoint(now, p, o);
            && RestoreAll(now, points + [p], o).disk == RestoreAll(last.disk, points, o).disk
            && RestoreAll(now, points + [p], o).actions == last.actions + RestoreAll(last.disk, points, o).actions
  {
    hide RestorePoint;
    assert (points + [p])[..|points|] == points;
  }

  /** Outside paths are never restored. */
  predicate Restorable(o: Options, path: string) { o.selected(path) && o.inside(path) }

  /** What an unforced restore leaves in each path, whatever was done to the files during the
      run and since: exactly the content, undone. */
  lemma {:induction false} RestoreIsUndoing(runId: string, d: Disk, steps: seq<Step>, now: Disk, o: Options,
                                            path: string)
    requires !o.dryRun && !o.force && KeepsBackups(d, steps, now.backups)
    ensures var after := RestoreAll(now, PointsOf(runId, d, steps, o.inside), o).disk;
            && after.backups == now.backups
            && Lookup(after.files, path) ==
               if Restorable(o, path) then Undone(d, steps, path, Lookup(now.files, path)) else Lookup(now.files, path)
    decreases |steps|
  {
    if steps != [] {
      var n := |steps| - 1;
      var earlier := DiskAfter(d, steps[..n]);
      var point := PointOf(runId, earlier, steps[n], o.inside);
      assert Backed(d, steps, now.backups, n);
      if steps[n].Governed? {
        RestoreOneWrite(runId, earlier, steps[n].write, now, o, path);
      }
      LastPoint(runId, d, steps, o.inside);
      FewerBackups(d, steps, now.backups);
      hide KeepsBackups, RestorePoint, PointsOf, PointOf, DiskAfter, Lookup, RestoreAll;
      if point.Some? {
        RestoreLast(now, PointsOf(runId, d, steps[..n], o.inside), point.value, o);
        RestoreIsUndoing(runId, d, steps[..n], RestorePoint(now, point.value, o).disk, o, path);
      } else {
        RestoreIsUndoing(runId, d, steps[..n], now, o, path);
      }
    }
  }

  // ----- Runs whose files nobody else changed -----

  /** The governed writes put this content into the path. */
  predicate WroteInto(steps: seq<Step>, path: string, content: Option<Bytes>) {
    exists i | 0 <= i < |steps| ::
      steps[i].Governed? && steps[i].write.path == path && content == Some(steps[i].write.content)
  }

  predicate Touches(steps: seq<Step>, path: string) {
    exists i | 0 <= i < |steps| :: steps[i].Governed? && steps[i].write.path == path
  }

  predicate EditsPath(s: Step, path: string) { s.Edited? && s.path == path }

  predicate Unedited(steps: seq<Step>, path: string) {
    forall i | 0 <= i < |steps| :: !EditsPath(steps[i], path)
  }

  lemma WroteSplit(steps: seq<Step>, path: string, content: Option<Bytes>)
    requires steps != []
    ensures var n := |steps| - 1;
            var s := steps[n];
            && (WroteInto(steps, path, content) <==>
                  || WroteInto(steps[..n], path, content)
                  || (s.Governed? && s.write.path == path && content == Some(s.write.content)))
            && (Touches(steps, path) <==> Touches(steps[..n], path) || (s.Governed? && s.write.path == path))
            && (Unedited(steps, path) ==> Unedited(steps[..n], path) && !EditsPath(s, path))
  {
    var n := |steps| - 1;
    assert steps == steps[..n] + [steps[n]];
    if WroteInto(steps[..n], path, content) {
      var i :| 0 <= i < n && steps[..n][i].Governed? && steps[..n][i].write.path == path
               && content == Some(steps[..n][i].write.content);
      assert steps[i].Governed?;
    }
    if Touches(steps[..n], path) {
      var i :| 0 <= i < n && steps[..n][i].Governed? && steps[..n][i].write.path == path;
      assert steps[i].Governed?;
    }
    if i :| 0 <= i < n && steps[i].Governed? && steps[i].write.path == path && content == Some(steps[i].write.content) {
      assert steps[..n][i].Governed?;
    }
    if i :| 0 <= i < n && steps[i].Governed? && steps[i].write.path == path {
      assert steps[..n][i].Governed?;
    }
  }

  lemma StepOnPath(d: Disk, s: Step, path: string)
    requires !EditsPath(s, path)
    ensures Lookup(After(d, s).files, path) ==
            if s.Governed? && s.write.path == path then Some(s.write.content) else Lookup(d.files, path)
  {
  }

  /** A path that nobody edited holds what was last written into it, or what it held before. */
  lemma {:induction false} HoldsLastWrite(d: Disk, steps: seq<Step>, path: string)
    requires Unedited(steps, path)
    ensures var now := Lookup(DiskAfter(d, steps).files, path);
            if Touches(steps, path) then WroteInto(steps, path, now) else now == Lookup(d.files, path)
  {
    if steps != [] {
      var n := |steps| - 1;
      WroteSplit(steps, path, Lookup(DiskAfter(d, steps).files, path));
      StepOnPath(DiskAfter(d, steps[..n]), steps[n], path);
      LastStep(d, steps);
      hide WroteInto, Touches, Unedited, After, DiskAfter, Lookup;
      HoldsLastWrite(d, steps[..n], path);
    }
  }

  /** Where nobody edited the path during the run, undoing gives back its first content. */
  lemma {:induction false} UndoneIsTheStart(d: Disk, steps: seq<Step>, path: string, c: Option<Bytes>)
    requires Unedited(steps, path)
    ensures Undone(d, steps, path, c) == if WroteInto(steps, path, c) then Lookup(d.files, path) else c
    decreases |steps|
  {
    if steps != [] {
      var n := |steps| - 1;
      var s, before := steps[n], Lookup(DiskAfter(d, steps[..n]).files, path);
      WroteSplit(steps, path, c);
      HoldsLastWrite(d, steps[..n], path);
      hide WroteInto, Touches, Unedited, DiskAfter, Lookup;
      UndoneIsTheStart(d, steps[..n], path,
                       if s.Governed? && s.write.path == path && c == Some(s.write.content) then before else c);
      if !Touches(steps[..n], path) {
        NoTouchNoWrite(steps[..n], path, before);
      }
    }
  }

  lemma NoTouchNoWrite(steps: seq<Step>, path: string, c: Option<Bytes>)
    requires !Touches(steps, path)
    ensures !WroteInto(steps, path, c)
  {
  }

  /** No step is anybody else's. */
  predicate Untampered(steps: seq<Step>) { forall i | 0 <= i < |steps| :: !steps[i].Edited? }

  /** Every governed write is selected and inside the project. */
  predicate Covered(steps: seq<Step>, o: Options) {
    forall i | 0 <= i < |steps| && steps[i].Governed? :: Restorable(o, steps[i].write.path)
  }

  /** Undo: with no other edits, every file is as it was before the run, repeated writes and
      created files included. */
  lemma RestoreUndoesTheRun(runId: string, d: Disk, steps: seq<Step>, o: Options)
    requires DistinctCalls(steps) && Untampered(steps) && Covered(steps, o) && !o.dryRun && !o.force
    ensures RestoreAll(DiskAfter(d, steps), PointsOf(runId, d, steps, o.inside), o).disk.files == d.files
  {
    var now := DiskAfter(d, steps);
    var after := RestoreAll(now, PointsOf(runId, d, steps, o.inside), o).disk;
    StepsKeepBackups(d, steps);
    forall path
      ensures Lookup(after.files, path) == Lookup(d.files, path)
    {
      RestoreIsUndoing(runId, d, steps, now, o, path);
      HoldsLastWrite(d, steps, path);
      UndoneIsTheStart(d, steps, path, Lookup(now.files, path));
      hide RestoreAll, PointsOf, DiskAfter, KeepsBackups, Lookup, Undone;
      if Touches(steps, path) {
        var i :| 0 <= i < |steps| && steps[i].Governed? && steps[i].write.path == path;
      } else {
        NoTouchNoWrite(steps, path, Lookup(now.files, path));
      }
    }
    SameFiles(after.files, d.files);
  }

  lemma SameFiles(a: map<string, Bytes>, b: map<string, Bytes>)
    requires forall path :: Lookup(a, path) == Lookup(b, path)
    ensures a == b
  {
    forall path
      ensures path in a <==> path in b
      ensures path in a ==> a[path] == b[path]
    {
      assert Lookup(a, path) == Lookup(b, path);
    }
  }

  // ----- Restoring twice -----

  predicate TwiceIsOnce(runId: string, d: Disk, steps: seq<Step>, now: Disk, o: Options) {
    var points := PointsOf(runId, d, steps, o.inside);
    var once := RestoreAll(now, points, o).disk;
    RestoreAll(once, points, o).disk.files == once.files
  }

  /** What a restore makes of the content of the i-th write, a further one would leave. */
  predicate SettlesAt(d: Disk, steps: seq<Step>, o: Options, i: nat)
    requires i < |steps|
  {
    steps[i].Governed? && Restorable(o, steps[i].write.path) ==>
      var c := Undone(d, steps, steps[i].write.path, Some(steps[i].write.content));
      Undone(d, steps, steps[i].write.path, c) == c
  }

  predicate Settles(d: Disk, steps: seq<Step>, o: Options) {
    forall i | 0 <= i < |steps| :: SettlesAt(d, steps, o, i)
  }

  lemma {:induction false} UnwrittenIsNotUndone(d: Disk, steps: seq<Step>, path: string, c: Option<Bytes>)
    requires !WroteInto(steps, path, c)
    ensures Undone(d, steps, path, c) == c
    decreases |steps|
  {
    if steps != [] {
      WroteSplit(steps, path, c);
      hide WroteInto, Touches, DiskAfter;
      UnwrittenIsNotUndone(d, steps[..|steps| - 1], path, c);
    }
  }

  lemma SettledContent(d: Disk, steps: seq<Step>, o: Options, path: string, c: Option<Bytes>)
    requires Settles(d, steps, o) && Restorable(o, path)
    ensures Undone(d, steps, path, Undone(d, steps, path, c)) == Undone(d, steps, path, c)
  {
    if WroteInto(steps, path, c) {
      var i :| 0 <= i < |steps| && steps[i].Governed? && steps[i].write.path == path
               && c == Some(steps[i].write.content);
      assert SettlesAt(d, steps, o, i);
    } else {
      UnwrittenIsNotUndone(d, steps, path, c);
    }
  }

  lemma SettledStays(runId: string, d: Disk, steps: seq<Step>, now: Disk, o: Options)
    requires !o.dryRun && !o.force && KeepsBackups(d, steps, now.backups) && Settles(d, steps, o)
    ensures TwiceIsOnce(runId, d, steps, now, o)
  {
    var points := PointsOf(runId, d, steps, o.inside);
    var once := RestoreAll(now, points, o).disk;
    var twice := RestoreAll(once, points, o).disk;
    hide RestoreAll, PointsOf, KeepsBackups, Undone, Settles, Lookup;
    RestoreIsUndoing(runId, d, steps, now, o, "");
    forall path
      ensures Lookup(twice.files, path) == Lookup(once.files, path)
    {
      RestoreIsUndoing(runId, d, steps, now, o, path);
      RestoreIsUndoing(runId, d, steps, once, o, path);
      if Restorable(o, path) {
        SettledContent(d, steps, o, path, Lookup(now.files, path));
      }
    }
    SameFiles(twice.files, once.files);
  }

  /** The disk on which the i-th write has only just been done. */
  function Holding(d: Disk, steps: seq<Step>, i: nat): Disk
    requires i < |steps| && steps[i].Governed?
  {
    Disk(map[steps[i].write.path := steps[i].write.content], DiskAfter(d, steps).backups)
  }

  // ----- Settling, read off the restore points -----

  function DigestOf(c: Option<Bytes>): (digest: Option<ContentDigest>) {
    if c.Some? then Some(OfBytes(c.value)) else None
  }

  /** What becomes of a file by its digest, when the points are restored: each whose own digest
      it has, the last first, gives way to that of its backup, or to no file. */
  function DigestUndone(points: seq<Checkpoint>, path: string, c: Option<ContentDigest>): Option<ContentDigest> {
    if points == [] then c
    else
      var n := |points| - 1;
      var undoes := points[n].path == path && c == Some(points[n].postDigest);
      DigestUndone(points[..n], path, if undoes then points[n].backupDigest else c)
  }

  /** What restoring makes of the digest, restoring again would leave. */
  predicate DigestSettles(points: seq<Checkpoint>, path: string, digest: ContentDigest) {
    var c := DigestUndone(points, path, Some(digest));
    DigestUndone(points, path, c) == c
  }

  predicate PointsSettle(points: seq<Checkpoint>, o: Options) {
    forall p | p in points && Restorable(o, p.path) :: DigestSettles(points, p.path, p.postDigest)
  }

  lemma PointDigests(runId: string, earlier: Disk, w: Write, inside: string -> bool)
    requires inside(w.path)
    ensures var point := PointOf(runId, earlier, Governed(w), inside);
            && point.Some? && point.value.path == w.path && point.value.postDigest == OfBytes(w.content)
            && point.value.backupDigest == DigestOf(Lookup(earlier.files, w.path))
  {
  }

  lemma OutsideHasNoPoint(runId: string, earlier: Disk, s: Step, inside: string -> bool)
    ensures var point := PointOf(runId, earlier, s, inside);
            point.Some? ==> s.Governed? && point.value.path == s.write.path && inside(s.write.path)
  {
  }

  lemma DigestSnoc(points: seq<Checkpoint>, p: Checkpoint, path: string, c: Option<ContentDigest>)
    ensures DigestUndone(points + [p], path, c) ==
            DigestUndone(points, path, if p.path == path && c == Some(p.postDigest) then p.backupDigest else c)
  {
    assert (points + [p])[..|points|] == points;
  }

  /** Undoing, seen through the digests the restore points carry. */
  lemma {:induction false} UndoneByDigest(runId: string, d: Disk, steps: seq<Step>, inside: string -> bool,
                                          path: string, c: Option<Bytes>)
    requires inside(path)
    ensures DigestOf(Undone(d, steps, path, c)) == DigestUndone(PointsOf(runId, d, steps, inside), path, DigestOf(c))
    decreases |steps|
  {
    if steps != [] {
      var n := |steps| - 1;
      var s, earlier := steps[n], DiskAfter(d, steps[..n]);
      var undoes := s.Governed? && s.write.path == path && c == Some(s.write.content);
      LastPoint(runId, d, steps, inside);
      OutsideHasNoPoint(runId, earlier, s, inside);
      if s.Governed? && inside(s.write.path) {
        PointDigests(runId, earlier, s.write, inside);
      }
      var point := PointOf(runId, earlier, s, inside);
      hide PointOf, PointsOf, DiskAfter, DigestUndone, Lookup;
      UndoneByDigest(runId, d, steps[..n], inside, path, if undoes then Lookup(earlier.files, path) else c);
      if point.Some? {
        DigestSnoc(PointsOf(runId, d, steps[..n], inside), point.value, path, DigestOf(c));
      }
    }
  }

  /** A governed write into the project has its restore point. */
  lemma {:induction false} StepHasPoint(runId: string, d: Disk, steps: seq<Step>, inside: string -> bool, i: nat)
    returns (p: Checkpoint)
    requires i < |steps| && steps[i].Governed? && inside(steps[i].write.path)
    ensures p in PointsOf(runId, d, steps, inside)
    ensures p.path == steps[i].write.path && p.postDigest == OfBytes(steps[i].write.content)
    decreases |steps|
  {
    var n := |steps| - 1;
    LastPoint(runId, d, steps, inside);
    if i < n {
      hide PointOf, DiskAfter, PointsOf;
      p := StepHasPoint(runId, d, steps[..n], inside, i);
    } else {
      PointDigests(runId, DiskAfter(d, steps[..n]), steps[n].write, inside);
      hide DiskAfter, PointsOf;
      p := PointOf(runId, DiskAfter(d, steps[..n]), steps[n], inside).value;
    }
  }

  /** And every restore point is that of a governed write. */
  lemma {:induction false} PointHasStep(runId: string, d: Disk, steps: seq<Step>, inside: string -> bool, p: Checkpoint)
    returns (i: nat)
    requires p in PointsOf(runId, d, steps, inside)
    ensures i < |steps| && steps[i].Governed? && inside(steps[i].write.path)
    ensures p.path == steps[i].write.path && p.postDigest == OfBytes(steps[i].write.content)
    decreases |steps|
  {
    assert steps != [];
    var n := |steps| - 1;
    LastPoint(runId, d, steps, inside);
    OutsideHasNoPoint(runId, DiskAfter(d, steps[..n]), steps[n], inside);
    if steps[n].Governed? && inside(steps[n].write.path) {
      PointDigests(runId, DiskAfter(d, steps[..n]), steps[n].write, inside);
    }
    hide DiskAfter, PointsOf, PointOf;
    if p in PointsOf(runId, d, steps[..n], inside) {
      i := PointHasStep(runId, d, steps[..n], inside, p);
    } else {
      i := n;
    }
  }

  lemma SettlesByDigest(runId: string, d: Disk, steps: seq<Step>, inside: string -> bool, path: string, content: Bytes)
    requires inside(path)
    ensures (var c := Undone(d, steps, path, Some(content)); Undone(d, steps, path, c) == c)
            <==> DigestSettles(PointsOf(runId, d, steps, inside), path, OfBytes(content))
  {
    hide Undone, PointsOf, DigestUndone;
    var c := Undone(d, steps, path, Some(content));
    UndoneByDigest(runId, d, steps, inside, path, Some(content));
    UndoneByDigest(runId, d, steps, inside, path, c);
    assert DigestOf(Undone(d, steps, path, c)) == DigestOf(c) <==> Undone(d, steps, path, c) == c;
  }

  lemma SettlesIff(runId: string, d: Disk, steps: seq<Step>, o: Options)
    ensures Settles(d, steps, o) <==> PointsSettle(PointsOf(runId, d, steps, o.inside), o)
  {
    var points := PointsOf(runId, d, steps, o.inside);
    hide Undone, PointsOf, DigestSettles;
    if Settles(d, steps, o) {
      forall p | p in points && Restorable(o, p.path)
        ensures DigestSettles(points, p.path, p.postDigest)
      {
        var i := PointHasStep(runId, d, steps, o.inside, p);
        assert SettlesAt(d, steps, o, i);
        SettlesByDigest(runId, d, steps, o.inside, p.path, steps[i].write.content);
      }
    }
    if PointsSettle(points, o) {
      forall i | 0 <= i < |steps|
        ensures SettlesAt(d, steps, o, i)
      {
        if steps[i].Governed? && Restorable(o, steps[i].write.path) {
          var p := StepHasPoint(runId, d, steps, o.inside, i);
          SettlesByDigest(runId, d, steps, o.inside, p.path, steps[i].write.content);
        }
      }
    }
  }

  /** Exactly for which runs a second restore never changes anything, whatever has become of
      the files before the first: those whose restore points settle, as their digests show.
      Edits between two governed writes can prevent that. */
  lemma TwiceIsOnceIff(runId: string, d: Disk, steps: seq<Step>, o: Options)
    requires !o.dryRun && !o.force && DistinctCalls(steps)
    ensures (forall now: Disk | KeepsBackups(d, steps, now.backups) :: TwiceIsOnce(runId, d, steps, now, o))
            <==> PointsSettle(PointsOf(runId, d, steps, o.inside), o)
  {
    SettlesIff(runId, d, steps, o);
    hide PointsSettle, PointsOf, TwiceIsOnce, Settles, KeepsBackups;
    AlwaysTwiceIsOnce(runId, d, steps, o);
  }

  lemma AlwaysTwiceIsOnce(runId: string, d: Disk, steps: seq<Step>, o: Options)
    requires !o.dryRun && !o.force && DistinctCalls(steps)
    ensures (forall now: Disk | KeepsBackups(d, steps, now.backups) :: TwiceIsOnce(runId, d, steps, now, o))
            <==> Settles(d, steps, o)
  {
    hide KeepsBackups, TwiceIsOnce, Settles, DiskAfter, Undone;
    if Settles(d, steps, o) {
      forall now: Disk | KeepsBackups(d, steps, now.backups)
        ensures TwiceIsOnce(runId, d, steps, now, o)
      {
        SettledStays(runId, d, steps, now, o);
      }
    }
    if forall now: Disk | KeepsBackups(d, steps, now.backups) :: TwiceIsOnce(runId, d, steps, now, o) {
      StepsKeepBackups(d, steps);
      forall i | 0 <= i < |steps|
        ensures SettlesAt(d, steps, o, i)
      {
        if steps[i].Governed? {
          TwiceSettles(runId, d, steps, o, i);
        }
      }
      AllSettle(d, steps, o);
    }
  }

  lemma AllSettle(d: Disk, steps: seq<Step>, o: Options)
    requires forall i | 0 <= i < |steps| :: SettlesAt(d, steps, o, i)
    ensures Settles(d, steps, o)
  {
    hide SettlesAt;
  }

  lemma TwiceSettles(runId: string, d: Disk, steps: seq<Step>, o: Options, i: nat)
    requires !o.dryRun && !o.force && i < |steps| && steps[i].Governed?
    requires KeepsBackups(d, steps, DiskAfter(d, steps).backups)
    requires TwiceIsOnce(runId, d, steps, Holding(d, steps, i), o)
    ensures SettlesAt(d, steps, o, i)
  {
    var path, now := steps[i].write.path, Holding(d, steps, i);
    assert Lookup(now.files, path) == Some(steps[i].write.content);
    hide KeepsBackups, DiskAfter, Undone, RestoreAll, PointsOf, Lookup;
    RestoreIsUndoing(runId, d, steps, now, o, path);
    RestoreIsUndoing(runId, d, steps, RestoreAll(now, PointsOf(runId, d, steps, o.inside), o).disk, o, path);
  }

  /** Without edits between the governed writes, a second restore changes nothing, whatever the
      files held before the first. */
  lemma RestoringTwiceIsRestoringOnce(runId: string, d: Disk, steps: seq<Step>, now: Disk, o: Options)
    requires Untampered(steps) && !o.dryRun && !o.force && KeepsBackups(d, steps, now.backups)
    ensures TwiceIsOnce(runId, d, steps, now, o)
  {
    forall i | 0 <= i < |steps|
      ensures SettlesAt(d, steps, o, i)
    {
      if steps[i].Governed? {
        var path, c := steps[i].write.path, Some(steps[i].write.content);
        UndoneIsTheStart(d, steps, path, c);
        UndoneIsTheStart(d, steps, path, Undone(d, steps, path, c));
      }
    }
    hide SettlesAt, Untampered;
    SettledStays(runId, d, steps, now, o);
  }

  // ----- An edit between two governed writes -----

  const PATH := "/p/a"
  const START := Disk(map[PATH := [1]], map[])

  /** A write, an edit, a write back to the first content, and an edit back to the second. */
  const BACK_AND_FORTH: seq<Step> := [
    Governed(Write("call_001", PATH, [2])),
    Edited(PATH, Some([3])),
    Governed(Write("call_002", PATH, [1])),
    Edited(PATH, Some([2]))]

  lemma OneUndone(d: Disk, steps: seq<Step>, n: nat, path: string, c: Option<Bytes>)
    requires n < |steps|
    ensures var s := steps[n];
            var undoes := s.Governed? && s.write.path == path && c == Some(s.write.content);
            Undone(d, steps[..n + 1], path, c) ==
            Undone(d, steps[..n], path, if undoes then Lookup(DiskAfter(d, steps[..n]).files, path) else c)
  {
    assert steps[..n + 1][..n] == steps[..n] && steps[..n + 1][n] == steps[n];
  }

  lemma BackAndForthUndone()
    ensures Undone(START, BACK_AND_FORTH, PATH, Some([2])) == Some([1])
    ensures Undone(START, BACK_AND_FORTH, PATH, Some([1])) == Some([3])
  {
    var steps := BACK_AND_FORTH;
    assert steps[..0] == [] && steps[..1] == [steps[0]] && steps[..1][..0] == [] && steps[..4] == steps;
    assert steps[..2][..1] == steps[..1];
    assert Lookup(DiskAfter(START, steps[..0]).files, PATH) == Some([1]);
    assert Lookup(DiskAfter(START, steps[..2]).files, PATH) == Some([3]);
    hide DiskAfter, Undone;
    OneUndone(START, steps, 3, PATH, Some([2]));
    OneUndone(START, steps, 2, PATH, Some([2]));
    OneUndone(START, steps, 1, PATH, Some([2]));
    OneUndone(START, steps, 0, PATH, Some([2]));
    OneUndone(START, steps, 3, PATH, Some([1]));
    OneUndone(START, steps, 2, PATH, Some([1]));
    OneUndone(START, steps, 1, PATH, Some([3]));
    OneUndone(START, steps, 0, PATH, Some([3]));
    NothingUndone(START, PATH);
  }

  lemma NothingUndone(d: Disk, path: string)
    ensures forall c :: Undone(d, [], path, c) == c
  {
  }

  /** With edits between governed writes a second restore can go on undoing: the first leaves
      one content, the second another. */
  lemma SecondRestoreGoesOn(runId: string, o: Options)
    requires Restorable(o, PATH) && !o.dryRun && !o.force
    ensures var now := DiskAfter(START, BACK_AND_FORTH);
            var points := PointsOf(runId, START, BACK_AND_FORTH, o.inside);
            var once := RestoreAll(now, points, o).disk;
            && Lookup(now.files, PATH) == Some([2]) && Lookup(once.files, PATH) == Some([1])
            && Lookup(RestoreAll(once, points, o).disk.files, PATH) == Some([3])
  {
    var now := DiskAfter(START, BACK_AND_FORTH);
    assert Lookup(now.files, PATH) == Some([2]) by { LastStep(START, BACK_AND_FORTH); }
    StepsKeepBackups(START, BACK_AND_FORTH);
    BackAndForthUndone();
    hide DiskAfter, Undone, RestoreAll, PointsOf, Lookup, KeepsBackups;
    RestoreIsUndoing(runId, START, BACK_AND_FORTH, now, o, PATH);
    var once := RestoreAll(now, PointsOf(runId, START, BACK_AND_FORTH, o.inside), o).disk;
    RestoreIsUndoing(runId, START, BACK_AND_FORTH, once, o, PATH);
  }
}
