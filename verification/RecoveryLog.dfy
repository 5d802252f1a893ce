/** Reading a run's restore points back from its evidence log. */
module RecoveryLog {
  import opened Texts
  import opened Entities
  import opened Recovery
  import opened RecoveryProofs

  predicate DigestShown(d: ContentDigest) { d.OtherDigest? ==> !Blank(d.text) }

  predicate ShowsDigest(e: Event) {
    e.ToolResulted? && e.ok ==> !Blank(e.callId) && e.output.Some? && DigestShown(e.output.value)
  }

  /** `_recovery_checkpoint_from_evidence`: what a restore point must look like. */
  predicate WellFormed(p: Checkpoint) {
    && !Blank(p.runId) && !Blank(p.callId) && !Blank(p.path)
    && (if p.existed then p.backupName.Some? && p.backupDigest.Some? else p.backupName.None? && p.backupDigest.None?)
    && OptionalText(p.backupName) && (p.backupDigest.Some? ==> DigestShown(p.backupDigest.value))
    && DigestShown(p.postDigest) && p.postDigest == p.resultDigest
  }

  /** The digest the last ok result of a call reports. */
  function LastResult(log: seq<Event>, callId: string): Option<ContentDigest> {
    if log == [] then None
    else
      var n := |log| - 1;
      if log[n].ToolResulted? && log[n].ok && log[n].callId == callId then log[n].output
      else LastResult(log[..n], callId)
  }

  predicate Acceptable(runId: string, log: seq<Event>, e: Event) {
    && ShowsDigest(e)
    && (e.WriteCheckpointed? ==>
          WellFormed(e.checkpoint) && e.checkpoint.runId == runId
          && LastResult(log, e.checkpoint.callId) == Some(e.checkpoint.resultDigest))
    && (e.Malformed? ==> e.kind != "write_recovery_checkpoint")
  }

  predicate AllAcceptable(runId: string, log: seq<Event>) {
    forall e | e in log :: Acceptable(runId, log, e)
  }

  function PointsIn(log: seq<Event>): seq<Checkpoint> {
    if log == [] then []
    else
      var e := log[|log| - 1];
      PointsIn(log[..|log| - 1]) + (if e.WriteCheckpointed? then [e.checkpoint] else [])
  }

  /** What reading the restore points of a log gives; None where it raises. */
  function CheckpointsIn(runId: string, log: seq<Event>): Option<seq<Checkpoint>> {
    if AllAcceptable(runId, log) then Some(PointsIn(log)) else None
  }

  /** `_recovery_checkpoints_from_verified_trace`. */
  method ReadCheckpoints(runId: string, events: seq<Event>) returns (r: Option<seq<Checkpoint>>)
    ensures r == CheckpointsIn(runId, events)
  {
    var results: map<string, ContentDigest> := map[];
    for i := 0 to |events|
      invariant forall id :: (if id in results then Some(results[id]) else None) == LastResult(events[..i], id)
      invariant forall e | e in events[..i] :: ShowsDigest(e)
    {
      var event := events[i];
      assert events[..i + 1][..i] == events[..i];
      if event.ToolResulted? && event.ok {
        if !ShowsDigest(event) {
          assert !Acceptable(runId, events, event);
          return None;
        }
        results := results[event.callId := event.output.value];
      }
    }
    assert events[..|events|] == events;
    var records := [];
    for i := 0 to |events|
      invariant records == PointsIn(events[..i])
      invariant forall e | e in events[..i] :: Acceptable(runId, events, e)
    {
      var event := events[i];
      assert events[..i + 1][..i] == events[..i];
      if event.Malformed? && event.kind == "write_recovery_checkpoint" {
        assert !Acceptable(runId, events, event);
        return None;
      }
      if event.WriteCheckpointed? {
        var p := event.checkpoint;
        assert (p.callId in results && results[p.callId] == p.resultDigest)
               <==> LastResult(events, p.callId) == Some(p.resultDigest);
        if !WellFormed(p) || p.runId != runId || p.callId !in results || results[p.callId] != p.resultDigest {
          assert !Acceptable(runId, events, event);
          return None;
        }
        records := records + [p];
      }
    }
    r := Some(records);
  }

  /** What a governed write appends once it has run, after whatever else is going on. */
  function WriteEvents(runId: string, w: Write, bound: Option<Checkpoint>): seq<Event> {
    [ToolResulted(runId, w.callId, true, Some(OfBytes(w.content)))]
    + (if bound.Some? then [WriteCheckpointed(bound.value)] else [])
  }

  /** The log of a run's steps; `between(i)` is what else went into it before the i-th. */
  function LogOfSteps(runId: string, d: Disk, steps: seq<Step>, inside: string -> bool, between: nat -> seq<Event>)
    : seq<Event>
  {
    if steps == [] then []
    else
      var n := |steps| - 1;
      LogOfSteps(runId, d, steps[..n], inside, between) + between(n)
      + StepEvents(runId, DiskAfter(d, steps[..n]), steps[n], inside)
  }

  /** Only a governed write appends something that is read here. */
  function StepEvents(runId: string, before: Disk, s: Step, inside: string -> bool): seq<Event> {
    if s.Governed? then WriteEvents(runId, s.write, PointOf(runId, before, s, inside)) else []
  }

  /** Events of other calls: no restore points, and no ok results of the governed writes. */
  predicate Elsewhere(steps: seq<Step>, events: seq<Event>) {
    forall e | e in events ::
      && !e.WriteCheckpointed? && (e.Malformed? ==> e.kind != "write_recovery_checkpoint")
      && (e.ToolResulted? && e.ok ==>
            forall i | 0 <= i < |steps| && steps[i].Governed? :: steps[i].write.callId != e.callId)
  }

  lemma {:induction false} LastResultJoin(a: seq<Event>, b: seq<Event>, callId: string)
    requires forall e | e in b :: e.ToolResulted? && e.ok && e.callId == callId ==> e.output.Some?
    ensures LastResult(a + b, callId) ==
            if LastResult(b, callId).Some? then LastResult(b, callId) else LastResult(a, callId)
  {
    if b == [] {
      assert a + b == a;
    } else {
      var n := |b| - 1;
      assert (a + b)[..|a + b| - 1] == a + b[..n] && (a + b)[|a + b| - 1] == b[n];
      LastResultJoin(a, b[..n], callId);
    }
  }

  lemma {:induction false} NoResultElsewhere(events: seq<Event>, callId: string)
    requires forall e | e in events :: !(e.ToolResulted? && e.ok && e.callId == callId)
    ensures LastResult(events, callId).None?
  {
    if events != [] {
      NoResultElsewhere(events[..|events| - 1], callId);
    }
  }

  lemma {:induction false} NoPointsElsewhere(events: seq<Event>)
    requires forall e | e in events :: !e.WriteCheckpointed?
    ensures PointsIn(events) == []
  {
    if events != [] {
      NoPointsElsewhere(events[..|events| - 1]);
    }
  }

  lemma {:induction false} PointsJoin(a: seq<Event>, b: seq<Event>)
    ensures PointsIn(a + b) == PointsIn(a) + PointsIn(b)
  {
    if b == [] {
      assert a + b == a;
    } else {
      var n := |b| - 1;
      assert (a + b)[..|a + b| - 1] == a + b[..n] && (a + b)[|a + b| - 1] == b[n];
      PointsJoin(a, b[..n]);
    }
  }

  lemma WriteEventsRead(runId: string, w: Write, bound: Option<Checkpoint>, callId: string)
    ensures var events := WriteEvents(runId, w, bound);
            && PointsIn(events) == (if bound.Some? then [bound.value] else [])
            && LastResult(events, callId) == if w.callId == callId then Some(OfBytes(w.content)) else None
  {
    var result := ToolResulted(runId, w.callId, true, Some(OfBytes(w.content)));
    assert [result][..0] == [];
    assert PointsIn([result]) == [] && LastResult([], callId) == None;
    assert LastResult([result], callId) == if w.callId == callId then Some(OfBytes(w.content)) else None;
    if bound.Some? {
      assert WriteEvents(runId, w, bound) == [result, WriteCheckpointed(bound.value)];
      assert [result, WriteCheckpointed(bound.value)][..1] == [result];
    }
  }

  lemma ElsewhereAt(steps: seq<Step>, events: seq<Event>, i: nat)
    requires Elsewhere(steps, events) && i < |steps| && steps[i].Governed?
    ensures forall e | e in events :: !(e.ToolResulted? && e.ok && e.callId == steps[i].write.callId)
  {
  }

  lemma ElsewhereNoPoints(steps: seq<Step>, events: seq<Event>)
    requires Elsewhere(steps, events)
    ensures PointsIn(events) == []
  {
    NoPointsElsewhere(events);
  }

  lemma LoggedLast(runId: string, d: Disk, steps: seq<Step>, inside: string -> bool, between: nat -> seq<Event>, n: nat)
    requires n < |steps|
    ensures LogOfSteps(runId, d, steps[..n + 1], inside, between) ==
            LogOfSteps(runId, d, steps[..n], inside, between) + between(n)
            + StepEvents(runId, DiskAfter(d, steps[..n]), steps[n], inside)
    ensures PointsOf(runId, d, steps[..n + 1], inside) ==
            PointsOf(runId, d, steps[..n], inside)
            + PointsIn(StepEvents(runId, DiskAfter(d, steps[..n]), steps[n], inside))
  {
    var s, before := steps[n], DiskAfter(d, steps[..n]);
    assert steps[..n + 1][..n] == steps[..n] && steps[..n + 1][n] == s;
    if s.Governed? {
      WriteEventsRead(runId, s.write, PointOf(runId, before, s, inside), "");
    }
    hide DiskAfter;
  }

  /** The restore points in a log of the first k steps. */
  lemma {:induction false} PointsAreRead(runId: string, d: Disk, steps: seq<Step>, inside: string -> bool,
                                         between: nat -> seq<Event>, k: nat)
    requires k <= |steps| && forall j :: Elsewhere(steps, between(j))
    ensures PointsIn(LogOfSteps(runId, d, steps[..k], inside, between)) == PointsOf(runId, d, steps[..k], inside)
  {
    if k > 0 {
      var n := k - 1;
      hide DiskAfter, StepEvents, PointsIn, LogOfSteps, PointsOf, Elsewhere;
      PointsAreRead(runId, d, steps, inside, between, n);
      LoggedLast(runId, d, steps, inside, between, n);
      var earlier := LogOfSteps(runId, d, steps[..n], inside, between);
      var events := StepEvents(runId, DiskAfter(d, steps[..n]), steps[n], inside);
      ElsewhereNoPoints(steps, between(n));
      PointsAround(earlier, between(n), events);
    } else {
      assert steps[..0] == [];
    }
  }

  lemma PointsAround(a: seq<Event>, b: seq<Event>, c: seq<Event>)
    requires PointsIn(b) == []
    ensures PointsIn(a + b + c) == PointsIn(a) + PointsIn(c)
  {
    hide PointsIn;
    PointsJoin(a, b);
    PointsJoin(a + b, c);
  }

  lemma ResultOfStep(runId: string, before: Disk, s: Step, inside: string -> bool, callId: string)
    ensures LastResult(StepEvents(runId, before, s, inside), callId) ==
            if s.Governed? && s.write.callId == callId then Some(OfBytes(s.write.content)) else None
    ensures forall e | e in StepEvents(runId, before, s, inside) :: e.ToolResulted? ==> e.output.Some?
  {
    if s.Governed? {
      WriteEventsRead(runId, s.write, PointOf(runId, before, s, inside), callId);
    }
    hide PointOf;
  }

  /** What a log of the first k steps says of the i-th. */
  lemma {:induction false} ResultsAreRead(runId: string, d: Disk, steps: seq<Step>, inside: string -> bool,
                                          between: nat -> seq<Event>, k: nat, i: nat)
    requires DistinctCalls(steps) && k <= |steps| && i < |steps| && steps[i].Governed?
    requires forall j :: Elsewhere(steps, between(j))
    ensures i < k ==>
              LastResult(LogOfSteps(runId, d, steps[..k], inside, between), steps[i].write.callId) ==
              Some(OfBytes(steps[i].write.content))
  {
    if i < k {
      var n, id := k - 1, steps[i].write.callId;
      hide DiskAfter, StepEvents, LastResult, LogOfSteps, PointsOf, PointsIn;
      var earlier := LogOfSteps(runId, d, steps[..n], inside, between);
      ResultsAreRead(runId, d, steps, inside, between, n, i);
      LoggedLast(runId, d, steps, inside, between, n);
      ElsewhereAt(steps, between(n), i);
      NoResultElsewhere(between(n), id);
      LastResultJoin(earlier, between(n), id);
      ResultOfStep(runId, DiskAfter(d, steps[..n]), steps[n], inside, id);
      LastResultJoin(earlier + between(n), StepEvents(runId, DiskAfter(d, steps[..n]), steps[n], inside), id);
      assert CallOf(steps[i]) == Some(id);
      assert i < n ==> CallOf(steps[i]) != CallOf(steps[n]);
    }
  }

  predicate StepsNamed(runId: string, steps: seq<Step>) {
    && !Blank(runId)
    && forall i | 0 <= i < |steps| && steps[i].Governed? :: !Blank(steps[i].write.callId) && !Blank(steps[i].write.path)
  }

  lemma PointIsWellFormed(runId: string, d: Disk, w: Write, inside: string -> bool)
    requires !Blank(runId) && !Blank(w.callId) && !Blank(w.path)
    ensures var point := PointOf(runId, d, Governed(w), inside);
            point.Some? ==>
              && WellFormed(point.value) && point.value.runId == runId
              && point.value.callId == w.callId && point.value.resultDigest == OfBytes(w.content)
  {
    assert BackupName(w.callId)[|w.callId|] == '.';
  }

  lemma StepIsAcceptable(runId: string, d: Disk, s: Step, inside: string -> bool, log: seq<Event>, e: Event)
    requires e in StepEvents(runId, d, s, inside) && s.Governed?
    requires !Blank(runId) && !Blank(s.write.callId) && !Blank(s.write.path)
    requires LastResult(log, s.write.callId) == Some(OfBytes(s.write.content))
    ensures Acceptable(runId, log, e)
  {
    PointIsWellFormed(runId, d, s.write, inside);
    hide PointOf, WellFormed, LastResult;
  }

  lemma {:induction false} StepsAreAcceptable(runId: string, d: Disk, steps: seq<Step>, inside: string -> bool,
                                              between: nat -> seq<Event>, k: nat, log: seq<Event>, e: Event)
    requires StepsNamed(runId, steps) && k <= |steps| && forall i :: Elsewhere(steps, between(i))
    requires forall i | 0 <= i < k && steps[i].Governed? ::
               LastResult(log, steps[i].write.callId) == Some(OfBytes(steps[i].write.content))
    requires e in LogOfSteps(runId, d, steps[..k], inside, between)
    ensures Acceptable(runId, log, e) || exists i | 0 <= i < k :: e in between(i) && !ShowsDigest(e)
  {
    if k > 0 {
      var n := k - 1;
      LoggedLast(runId, d, steps, inside, between, n);
      hide StepEvents, DiskAfter, LastResult, PointsOf, PointsIn, LogOfSteps;
      if e in LogOfSteps(runId, d, steps[..n], inside, between) {
        hide Acceptable;
        StepsAreAcceptable(runId, d, steps, inside, between, n, log, e);
      } else if e in between(n) {
        assert Elsewhere(steps, between(n));
      } else {
        NoEventsUnlessGoverned(runId, DiskAfter(d, steps[..n]), steps[n], inside);
        hide Acceptable;
        StepIsAcceptable(runId, DiskAfter(d, steps[..n]), steps[n], inside, log, e);
      }
    }
  }

  lemma NoEventsUnlessGoverned(runId: string, d: Disk, s: Step, inside: string -> bool)
    ensures !s.Governed? ==> StepEvents(runId, d, s, inside) == []
  {
  }

  lemma {:induction false} BetweenIsLogged(runId: string, d: Disk, steps: seq<Step>, inside: string -> bool,
                                           between: nat -> seq<Event>, i: nat, e: Event)
    requires i < |steps| && e in between(i)
    ensures e in LogOfSteps(runId, d, steps, inside, between)
    decreases |steps|
  {
    hide StepEvents, DiskAfter;
    if i < |steps| - 1 {
      BetweenIsLogged(runId, d, steps[..|steps| - 1], inside, between, i, e);
    }
  }

  /** The whole log: what went on after the last step included. */
  function WholeLog(runId: string, d: Disk, steps: seq<Step>, inside: string -> bool, between: nat -> seq<Event>)
    : seq<Event>
  {
    LogOfSteps(runId, d, steps, inside, between) + between(|steps|)
  }

  lemma WholeLogPoints(runId: string, d: Disk, steps: seq<Step>, inside: string -> bool, between: nat -> seq<Event>)
    requires forall i :: Elsewhere(steps, between(i))
    ensures PointsIn(WholeLog(runId, d, steps, inside, between)) == PointsOf(runId, d, steps, inside)
  {
    var written, tail := LogOfSteps(runId, d, steps, inside, between), between(|steps|);
    assert steps[..|steps|] == steps;
    ElsewhereNoPoints(steps, tail);
    PointsJoin(written, tail);
    hide LogOfSteps, PointsOf, PointsIn;
    PointsAreRead(runId, d, steps, inside, between, |steps|);
    assert PointsIn(written) + [] == PointsIn(written);
  }

  lemma WholeLogResults(runId: string, d: Disk, steps: seq<Step>, inside: string -> bool,
                        between: nat -> seq<Event>, i: nat)
    requires DistinctCalls(steps) && i < |steps| && steps[i].Governed? && forall j :: Elsewhere(steps, between(j))
    ensures LastResult(WholeLog(runId, d, steps, inside, between), steps[i].write.callId) ==
            Some(OfBytes(steps[i].write.content))
  {
    var written, tail := LogOfSteps(runId, d, steps, inside, between), between(|steps|);
    assert steps[..|steps|] == steps;
    hide LogOfSteps, LastResult;
    ResultsAreRead(runId, d, steps, inside, between, |steps|, i);
    ElsewhereAt(steps, tail, i);
    NoResultElsewhere(tail, steps[i].write.callId);
    LastResultJoin(written, tail, steps[i].write.callId);
  }

  /** Every result among the other events shows its digest. */
  predicate AllShow(between: nat -> seq<Event>, n: nat) {
    forall i, e | 0 <= i <= n && e in between(i) :: ShowsDigest(e)
  }

  lemma ShownIsAcceptable(runId: string, d: Disk, steps: seq<Step>, inside: string -> bool, between: nat -> seq<Event>)
    requires StepsNamed(runId, steps) && DistinctCalls(steps) && forall i :: Elsewhere(steps, between(i))
    requires AllShow(between, |steps|)
    ensures AllAcceptable(runId, WholeLog(runId, d, steps, inside, between))
  {
    var log := WholeLog(runId, d, steps, inside, between);
    forall i | 0 <= i < |steps| && steps[i].Governed?
      ensures LastResult(log, steps[i].write.callId) == Some(OfBytes(steps[i].write.content))
    {
      WholeLogResults(runId, d, steps, inside, between, i);
    }
    assert steps[..|steps|] == steps;
    hide LogOfSteps, LastResult;
    forall e | e in log
      ensures Acceptable(runId, log, e)
    {
      if e in LogOfSteps(runId, d, steps, inside, between) {
        StepsAreAcceptable(runId, d, steps, inside, between, |steps|, log, e);
      } else {
        assert Elsewhere(steps, between(|steps|));
      }
    }
  }

  /** Reading a run's log back gives exactly the restore points of its writes, in order, as
      long as every other ok result carries an output digest too; without one it raises. */
  lemma LogGivesThePoints(runId: string, d: Disk, steps: seq<Step>, inside: string -> bool, between: nat -> seq<Event>)
    requires StepsNamed(runId, steps) && DistinctCalls(steps) && forall i :: Elsewhere(steps, between(i))
    ensures var log := WholeLog(runId, d, steps, inside, between);
            && PointsIn(log) == PointsOf(runId, d, steps, inside)
            && (AllAcceptable(runId, log) <==> AllShow(between, |steps|))
  {
    var log := WholeLog(runId, d, steps, inside, between);
    WholeLogPoints(runId, d, steps, inside, between);
    if AllShow(between, |steps|) {
      ShownIsAcceptable(runId, d, steps, inside, between);
    } else {
      var i, e :| 0 <= i <= |steps| && e in between(i) && !ShowsDigest(e);
      if i < |steps| {
        BetweenIsLogged(runId, d, steps, inside, between, i, e);
      }
      hide LogOfSteps, LastResult;
      assert e in log && !Acceptable(runId, log, e);
    }
  }

  /** End to end: the log can be read back exactly if every other ok result carries a digest
      too, and restoring what is then read undoes the run. */
  lemma RestoreFromTheLog(runId: string, d: Disk, steps: seq<Step>, o: Options, between: nat -> seq<Event>)
    requires StepsNamed(runId, steps) && DistinctCalls(steps) && forall i :: Elsewhere(steps, between(i))
    requires !o.dryRun && !o.force && Covered(steps, o) && Untampered(steps)
    ensures var log := WholeLog(runId, d, steps, o.inside, between);
            && (CheckpointsIn(runId, log).Some? <==> AllShow(between, |steps|))
            && RestoreAll(DiskAfter(d, steps), PointsIn(log), o).disk.files == d.files
            && (CheckpointsIn(runId, log).Some? ==>
                  RestoreAll(DiskAfter(d, steps), CheckpointsIn(runId, log).value, o).disk.files == d.files)
  {
    LogGivesThePoints(runId, d, steps, o.inside, between);
    RestoreUndoesTheRun(runId, d, steps, o);
    hide RestoreAll, PointsIn, PointsOf, DiskAfter, AllAcceptable, AllShow, WholeLog;
  }
}
