/** Undoing governed writes from backups, as far as nobody else has changed the files. */
module Recovery {
  import opened Texts
  import opened Entities

  type Bytes = seq<Byte>

  /** The project's files by resolved path, and the run's backup files by name. */
  datatype Disk = Disk(files: map<string, Bytes>, backups: map<string, Bytes>)

  function Lookup(files: map<string, Bytes>, path: string): Option<Bytes> {
    if path in files then Some(files[path]) else None
  }

  // ----- Governed writes -----

  datatype BackupRecord = BackupRecord(callId: string, path: string, existed: bool, name: Option<string>,
                                       digest: Option<ContentDigest>)

  function BackupName(callId: string): string { callId + ".bak" }

  /** `create_backup_for_write`: the backup it leaves and the record of it. */
  function CreateBackup(d: Disk, callId: string, path: string): (Disk, BackupRecord) {
    if path in d.files then
      var name := BackupName(callId);
      (d.(backups := d.backups[name := d.files[path]]),
       BackupRecord(callId, path, true, Some(name), Some(OfBytes(d.files[path]))))
    else (d, BackupRecord(callId, path, false, None, None))
  }

  /** `bind_successful_write` on an ok result: the restore point, if the digest the tool
      reports is that of the bytes now in a file inside the project. */
  function BindSuccessfulWrite(runId: string, d: Disk, output: Option<ContentDigest>, b: BackupRecord,
                               inside: string -> bool)
    : Option<Checkpoint>
  {
    if output.None? || !inside(b.path) || b.path !in d.files || OfBytes(d.files[b.path]) != output.value then None
    else Some(Checkpoint(runId, b.callId, b.path, b.existed, b.name, b.digest, OfBytes(d.files[b.path]), output.value))
  }

  datatype Write = Write(callId: string, path: string, content: Bytes)

  /** What happens to the files while a run goes on. */
  datatype Step =
    // a write that passed the gate: backup, write, result
    | Governed(write: Write)
    // one that got as far as its backup: the tool failed, or reported no digest of what it left
    | Attempted(callId: string, path: string)
    // anything else that happens to a file, also what a failed tool leaves in it
    | Edited(path: string, content: Option<Bytes>)

  function Edit(d: Disk, path: string, content: Option<Bytes>): Disk {
    d.(files := if content.Some? then d.files[path := content.value] else d.files - {path})
  }

  function After(d: Disk, s: Step): Disk {
    match s
    case Governed(w) => Edit(CreateBackup(d, w.callId, w.path).0, w.path, Some(w.content))
    case Attempted(callId, path) => CreateBackup(d, callId, path).0
    case Edited(path, content) => Edit(d, path, content)
  }

  function DiskAfter(d: Disk, steps: seq<Step>): Disk {
    if steps == [] then d else After(DiskAfter(d, steps[..|steps| - 1]), steps[|steps| - 1])
  }

  /** The restore point of one step. */
  function PointOf(runId: string, d: Disk, s: Step, inside: string -> bool): Option<Checkpoint> {
    match s
    case Governed(w) =>
      BindSuccessfulWrite(runId, After(d, s), Some(OfBytes(w.content)), CreateBackup(d, w.callId, w.path).1, inside)
    case _ => None
  }

  /** The restore points of a sequence of steps, in order. */
  function PointsOf(runId: string, d: Disk, steps: seq<Step>, inside: string -> bool): seq<Checkpoint> {
    if steps == [] then []
    else
      var n := |steps| - 1;
      var point := PointOf(runId, DiskAfter(d, steps[..n]), steps[n], inside);
      PointsOf(runId, d, steps[..n], inside) + (if point.Some? then [point.value] else [])
  }

  // ----- Restoring -----

  /** The options of a restore: which paths `--file` selects, what lies inside the project. */
  datatype Options = Options(selected: string -> bool, inside: string -> bool, dryRun: bool, force: bool)

  datatype SkipReason = EscapesRoot | BackupEscapes | BackupUnavailable | BackupMismatch | TargetChanged

  datatype Action = Action(path: string, existed: bool, skipped: Option<SkipReason>)

  /** Why a restore point is skipped, checked in this order; None if it is not. */
  function Judge(d: Disk, p: Checkpoint, o: Options): Option<SkipReason> {
    if !o.inside(p.path) then Some(EscapesRoot)
    else if p.existed && p.backupName != Some(BackupName(p.callId)) then Some(BackupEscapes)
    else if p.existed && p.backupName.value !in d.backups then Some(BackupUnavailable)
    else if p.existed && Some(OfBytes(d.backups[p.backupName.value])) != p.backupDigest then Some(BackupMismatch)
    else if !o.force && (p.path !in d.files || OfBytes(d.files[p.path]) != p.postDigest) then Some(TargetChanged)
    else None
  }

  function Restored(d: Disk, p: Checkpoint, o: Options): Disk
    requires Judge(d, p, o).None?
  {
    if p.existed then d.(files := d.files[p.path := d.backups[p.backupName.value]])
    else d.(files := d.files - {p.path})
  }

  datatype Progress = Progress(disk: Disk, actions: seq<Action>)

  function RestorePoint(d: Disk, p: Checkpoint, o: Options): Progress {
    if !o.selected(p.path) then Progress(d, [])
    else
      var reason := Judge(d, p, o);
      Progress(if reason.Some? || o.dryRun then d else Restored(d, p, o), [Action(p.path, p.existed, reason)])
  }

  /** The restore points one after the other, the latest first. */
  function RestoreAll(d: Disk, points: seq<Checkpoint>, o: Options): Progress
    decreases |points|
  {
    if points == [] then Progress(d, [])
    else
      var n := |points| - 1;
      var last := RestorePoint(d, points[n], o);
      var rest := RestoreAll(last.disk, points[..n], o);
      Progress(rest.disk, last.actions + rest.actions)
  }

  /** The files of a workspace, changed in place. */
  class Workspace {
    var files: map<string, Bytes>
    var backups: map<string, Bytes>

    constructor (d: Disk)
      ensures State() == d
    {
      files, backups := d.files, d.backups;
    }

    ghost function State(): Disk
      reads this
    {
      Disk(files, backups)
    }

    /** A governed call of the write tool, which leaves `left` in the file and reports `output`:
        a governed write where it is bound, and else a backup and whatever the tool left. */
    method WriteFile(runId: string, callId: string, path: string, left: Option<Bytes>, ok: bool,
                     output: Option<ContentDigest>, inside: string -> bool)
      returns (bound: Option<Checkpoint>)
      modifies this
      ensures bound.Some? <==> ok && left.Some? && output == Some(OfBytes(left.value)) && inside(path)
      ensures bound.Some? ==>
                var s := Governed(Write(callId, path, left.value));
                State() == After(old(State()), s) && bound == PointOf(runId, old(State()), s, inside)
      ensures bound.None? ==> State() == DiskAfter(old(State()), [Attempted(callId, path), Edited(path, left)])
    {
      ghost var start := State();
      var existed := path in files;
      var name, digest := None, None;
      if existed {
        name := Some(BackupName(callId));
        backups := backups[BackupName(callId) := files[path]];
        digest := Some(OfBytes(files[path]));
      }
      if left.Some? {
        files := files[path := left.value];
      } else {
        files := files - {path};
      }
      TwoSteps(start, Attempted(callId, path), Edited(path, left));
      if !ok || output.None? || !inside(path) || path !in files || OfBytes(files[path]) != output.value {
        return None;
      }
      return Some(Checkpoint(runId, callId, path, existed, name, digest, OfBytes(files[path]), output.value));
    }

    /** One round of the loop: the action, unless the path is not selected, and what it does. */
    method RestoreOne(p: Checkpoint, o: Options) returns (action: Option<Action>)
      modifies this`files
      ensures Progress(State(), if action.Some? then [action.value] else []) == RestorePoint(old(State()), p, o)
    {
      if !o.selected(p.path) {
        return None;
      }
      var reason := Judge(Disk(files, backups), p, o);
      if reason.None? && !o.dryRun {
        if p.existed {
          files := files[p.path := backups[p.backupName.value]];
        } else {
          files := files - {p.path};
        }
      }
      return Some(Action(p.path, p.existed, reason));
    }

    /** The loop of `_restore_run_locked`, and the events it records. */
    method Restore(runId: string, points: seq<Checkpoint>, o: Options)
      returns (actions: seq<Action>, events: seq<Event>)
      modifies this`files
      ensures Progress(State(), actions) == RestoreAll(old(State()), points, o)
      ensures |events| == |actions|
      ensures forall i | 0 <= i < |actions| :: events[i] == Noted(runId, RestoreKind(actions[i], o.dryRun))
      ensures o.dryRun ==> files == old(files)
    {
      actions, events := [], [];
      ghost var start := State();
      hide RestoreAll, RestorePoint;
      var i := |points|;
      assert points[..|points|] == points;
      assert forall rest: seq<Action> :: [] + rest == rest;
      while i > 0
        invariant 0 <= i <= |points|
        invariant var rest := RestoreAll(State(), points[..i], o);
                  Progress(rest.disk, actions + rest.actions) == RestoreAll(start, points, o)
        invariant |events| == |actions|
        invariant forall j | 0 <= j < |actions| :: events[j] == Noted(runId, RestoreKind(actions[j], o.dryRun))
        invariant o.dryRun ==> files == old(files)
      {
        i := i - 1;
        RestoreStep(State(), points, i, o);
        DryKeepsFiles(State(), points[i], o);
        ghost var before := actions;
        var action := RestoreOne(points[i], o);
        ghost var rest := RestoreAll(State(), points[..i], o);
        if action.Some? {
          actions := actions + [action.value];
          events := events + [Noted(runId, RestoreKind(action.value, o.dryRun))];
          assert actions + rest.actions == before + ([action.value] + rest.actions);
        } else {
          assert [] + rest.actions == rest.actions;
        }
      }
      NothingToRestore(State(), points, o);
      assert actions + [] == actions;
    }
  }

  lemma DryKeepsFiles(d: Disk, p: Checkpoint, o: Options)
    ensures o.dryRun ==> RestorePoint(d, p, o).disk == d
  {
  }

  lemma TwoSteps(d: Disk, s: Step, t: Step)
    ensures DiskAfter(d, [s, t]) == After(After(d, s), t)
  {
    hide After;
    assert [s, t][..1] == [s] && [s][..0] == [];
    assert DiskAfter(d, [s]) == After(DiskAfter(d, []), s);
  }

  lemma RestoreStep(d: Disk, points: seq<Checkpoint>, i: nat, o: Options)
    requires i < |points|
    ensures var last := RestorePoint(d, points[i], o);
            var rest := RestoreAll(last.disk, points[..i], o);
            RestoreAll(d, points[..i + 1], o) == Progress(rest.disk, last.actions + rest.actions)
  {
    assert points[..i + 1][..i] == points[..i] && points[..i + 1][i] == points[i];
  }

  lemma NothingToRestore(d: Disk, points: seq<Checkpoint>, o: Options)
    ensures RestoreAll(d, points[..0], o) == Progress(d, [])
  {
  }

  function RestoreKind(a: Action, dryRun: bool): string {
    if a.skipped == Some(TargetChanged) then "restore_conflict"
    else if a.skipped.Some? then "restore_skipped"
    else if dryRun then "restore_preview"
    else "restore_applied"
  }
}
