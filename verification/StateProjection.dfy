/** The projection and the projecting recorder as they run: tables updated row by row inside
    transactions, after the event is in the trace. */
module StateProjection {
  import opened Texts
  import opened Lifecycle
  import opened Entities
  import EvidenceLog
  import opened Projection
  import opened ProjectionProofs
  import opened ProjectionSync
  import opened Replay
  import opened TraceRecorders

  class SQLiteStateProjection {
    var sessions: map<string, SessionRow>
    var toolCalls: map<(string, string), CallRow>
    var approvals: map<string, ApprovalRow>
    var projectionEvents: map<EvidenceLog.Hash, string>

    ghost function State(): Tables
      reads this
    {
      Tables(sessions, toolCalls, approvals, projectionEvents)
    }

    constructor ()
      ensures State() == EMPTY
    {
      sessions, toolCalls, approvals, projectionEvents := map[], map[], map[], map[];
    }

    /** `_apply_event` inside an open transaction: its fault, if any, and then no change. */
    method ApplyWithin(r: EvidenceLog.Record) returns (fault: Option<Fault>)
      modifies this
      ensures var h := Apply(old(State()), r);
              if h.Done? then fault.None? && State() == h.db else fault == Some(h.fault) && State() == old(State())
    {
      var e := r.content;
      if !Projected(e) || r.hash in projectionEvents {
        return None;
      }
      if Blank(RunOf(e)) {
        return Some(ValueFault);
      }
      match e {
        case SessionCreated(s) =>
          if s.runId in sessions || s.status != Created || !ValidSession(s) {
            return Some(ValueFault);
          }
          sessions := sessions[s.runId := SessionRow(s, r.hash)];
        case SessionStatusChanged(s) =>
          if s.runId !in sessions || !StampText(s.updatedAt)
             || !SessionEdge(sessions[s.runId].session.status, s.status) {
            return Some(ValueFault);
          }
          var row := sessions[s.runId].session.(status := s.status, updatedAt := s.updatedAt);
          sessions := sessions[s.runId := SessionRow(row, r.hash)];
        case ToolCallRequested(c) =>
          if c.status != Requested || !ValidCall(c) {
            return Some(ValueFault);
          }
          if (c.runId, c.callId) in toolCalls || c.runId !in sessions {
            return Some(IntegrityFault);
          }
          toolCalls := toolCalls[(c.runId, c.callId) := CallRow(c, r.hash)];
        case ToolCallStatusChanged(c) =>
          var key := (c.runId, c.callId);
          if key !in toolCalls || !StampText(c.updatedAt) || !CallEdge(toolCalls[key].call.status, c.status) {
            return Some(ValueFault);
          }
          var row := toolCalls[key].call.(status := c.status, updatedAt := c.updatedAt);
          toolCalls := toolCalls[key := CallRow(row, r.hash)];
        case ApprovalRequested(a) =>
          if !ProjectableApproval(a) {
            return Some(ValueFault);
          }
          if a.approvalId in approvals || (a.runId, a.callId) !in toolCalls {
            return Some(IntegrityFault);
          }
          approvals := approvals[a.approvalId := ApprovalRow(a.(preview := map[], verdict := Pending), r.hash)];
        case ApprovalDecided(d) =>
          if d.verdict.Pending? || !VerdictText(d.verdict) || d.approvalId !in approvals
             || approvals[d.approvalId].approval.digest != d.digest
             || !approvals[d.approvalId].approval.verdict.Pending? {
            return Some(ValueFault);
          }
          var row := approvals[d.approvalId].approval.(verdict := d.verdict);
          approvals := approvals[d.approvalId := ApprovalRow(row, r.hash)];
        case _ =>
          return Some(ValueFault);
      }
      projectionEvents := projectionEvents[r.hash := RunOf(e)];
      return None;
    }

    /** `rebuild_run`: the run's rows are those of its events, or, where it raises, nothing
        has changed. */
    method RebuildRun(run: string, records: seq<EvidenceLog.Record>) returns (fault: Option<Fault>)
      modifies this
      ensures var h := RebuiltRun(old(State()), run, records);
              if h.Done? then fault.None? && State() == h.db else fault == Some(h.fault) && State() == old(State())
    {
      var oldSessions, oldCalls, oldApprovals, oldEvents := sessions, toolCalls, approvals, projectionEvents;
      hide Apply, ApplyAll, WithoutRun;
      var kept := WithoutRun(Tables(sessions, toolCalls, approvals, projectionEvents), run);
      approvals, toolCalls, sessions, projectionEvents := kept.approvals, kept.calls, kept.sessions, kept.seen;
      fault := ApplyEvents(records);
      if fault.Some? {
        sessions, toolCalls, approvals, projectionEvents := oldSessions, oldCalls, oldApprovals, oldEvents;
      }
    }

    /** A loop over events within a transaction; it stops at the first fault. */
    method ApplyEvents(records: seq<EvidenceLog.Record>) returns (fault: Option<Fault>)
      modifies this
      ensures var h := ApplyAll(old(State()), records);
              if h.Done? then fault.None? && State() == h.db else fault == Some(h.fault)
    {
      ghost var start := State();
      hide Apply;
      for i := 0 to |records|
        invariant ApplyAll(start, records[..i]) == Done(State())
      {
        assert records[..i + 1][..i] == records[..i];
        fault := ApplyWithin(records[i]);
        if fault.Some? {
          FaultStays(start, records, i + 1);
          return;
        }
      }
      assert records[..|records|] == records;
      return None;
    }

    /** `rebuild`: all four tables from the given traces, or no change. */
    method Rebuild(logs: Traces, order: seq<string>) returns (fault: Option<Fault>)
      requires forall i | 0 <= i < |order| :: order[i] in logs
      modifies this
      ensures var h := RebuiltAll(logs, order);
              if h.Done? then fault.None? && State() == h.db else fault.Some? && State() == old(State())
    {
      var oldSessions, oldCalls, oldApprovals, oldEvents := sessions, toolCalls, approvals, projectionEvents;
      sessions, toolCalls, approvals, projectionEvents := map[], map[], map[], map[];
      for i := 0 to |order|
        invariant RebuiltAll(logs, order[..i]) == Done(State())
      {
        assert order[..i + 1][..i] == order[..i];
        fault := ApplyEvents(logs[order[i]]);
        if fault.Some? {
          RebuildFaultStays(logs, order, i + 1);
          sessions, toolCalls, approvals, projectionEvents := oldSessions, oldCalls, oldApprovals, oldEvents;
          return;
        }
      }
      assert order[..|order|] == order;
      return None;
    }
  }

  lemma {:induction false} FaultStays(db: Tables, records: seq<EvidenceLog.Record>, n: nat)
    requires n <= |records| && ApplyAll(db, records[..n]).Failed_?
    ensures ApplyAll(db, records) == ApplyAll(db, records[..n])
    decreases |records|
  {
    hide Apply;
    if n == |records| {
      assert records[..n] == records;
    } else {
      assert records[..|records| - 1][..n] == records[..n];
      FaultStays(db, records[..|records| - 1], n);
    }
  }

  lemma {:induction false} RebuildFaultStays(logs: Traces, order: seq<string>, n: nat)
    requires forall i | 0 <= i < |order| :: order[i] in logs
    requires n <= |order| && RebuiltAll(logs, order[..n]).Failed_?
    ensures RebuiltAll(logs, order).Failed_?
    decreases |order|
  {
    if n == |order| {
      assert order[..n] == order;
    } else {
      assert order[..|order| - 1][..n] == order[..n];
      RebuildFaultStays(logs, order[..|order| - 1], n);
    }
  }

  class ProjectingTraceRecorder {
    const recorder: TraceRecorder
    const projection: SQLiteStateProjection

    constructor (recorder: TraceRecorder, projection: SQLiteStateProjection)
      ensures this.recorder == recorder && this.projection == projection
    {
      this.recorder := recorder;
      this.projection := projection;
    }

    /** `append`: the trace first, then the tables, which are repaired from the trace after a
        database error. Whatever the projection does, and even where it raises, the event is
        in the trace; raised also tells of a recorder that refused the event. */
    method Append(content: Event, lineSize: nat, writtenAt: int, applyWorks: bool, rebuildWorks: bool)
      returns (record: Option<EvidenceLog.Record>, raised: bool)
      requires EvidenceLog.WellKept(recorder.file.State()) && lineSize > 0
      requires EvidenceLog.HonestCache(recorder.headCache, recorder.file.State())
      modifies recorder`headCache, recorder.file, projection
      ensures EvidenceLog.WellKept(recorder.file.State())
      ensures EvidenceLog.HonestCache(recorder.headCache, recorder.file.State())
      ensures record.None? ==> raised && projection.State() == old(projection.State())
      ensures record.Some? ==>
                && recorder.file.records == old(recorder.file.records) + [record.value]
                && var outcome := ProjectAppended(old(projection.State()), recorder.runId, recorder.file.records,
                                                  applyWorks, rebuildWorks);
                   && projection.State() == (if outcome.NotAtAll? then old(projection.State()) else outcome.db)
                   && (raised <==> outcome.NotAtAll? && outcome.raises)
    {
      record := recorder.Append(content, lineSize, writtenAt);
      hide EvidenceLog.WellKept, EvidenceLog.HonestCache, EvidenceLog.Append, Apply, ApplyAll, WithoutRun;
      if record.None? {
        return record, true;
      }
      raised := Project(record.value, applyWorks, rebuildWorks);
    }

    /** The part of `append` after the event is in the trace. */
    method Project(record: EvidenceLog.Record, applyWorks: bool, rebuildWorks: bool) returns (raised: bool)
      requires recorder.file.records != [] && recorder.file.records[|recorder.file.records| - 1] == record
      modifies projection
      ensures var outcome := ProjectAppended(old(projection.State()), recorder.runId, recorder.file.records,
                                             applyWorks, rebuildWorks);
              && projection.State() == (if outcome.NotAtAll? then old(projection.State()) else outcome.db)
              && (raised <==> outcome.NotAtAll? && outcome.raises)
    {
      hide Apply, RebuiltRun;
      var fault := Some(IntegrityFault);
      if applyWorks {
        fault := projection.ApplyWithin(record);
      }
      if fault == Some(IntegrityFault) && rebuildWorks {
        fault := projection.RebuildRun(recorder.runId, recorder.file.records);
      }
      return fault == Some(ValueFault);
    }
  }

  // ----- When an append raises -----

  lemma SessionTaken(db: Tables, runId: string, st: RunState, e: Event, source: EvidenceLog.Hash)
    requires Step(runId, st, e).Some? && (e.SessionCreated? || e.SessionStatusChanged?)
    ensures Handle(db, e, source) == Failed_(ValueFault) <==> NoTaker(db, e)
  {
    SessionEffect(runId, st, e);
    hide Step, Blank, ValidSession, StampText, SessionEdge;
  }

  lemma CallTaken(db: Tables, runId: string, st: RunState, e: Event, source: EvidenceLog.Hash)
    requires Step(runId, st, e).Some? && (e.ToolCallRequested? || e.ToolCallStatusChanged?)
    ensures Handle(db, e, source) == Failed_(ValueFault) <==> NoTaker(db, e)
  {
    SessionEffect(runId, st, e);
    CallEffect(runId, st, e);
    hide Step, Blank, ValidCall, StampText, CallEdge;
  }

  lemma ApprovalTaken(db: Tables, runId: string, st: RunState, e: Event, source: EvidenceLog.Hash)
    requires Step(runId, st, e).Some? && (e.ApprovalRequested? || e.ApprovalDecided?)
    ensures Handle(db, e, source) == Failed_(ValueFault) <==> NoTaker(db, e)
  {
    SessionEffect(runId, st, e);
    ApprovalEffect(runId, st, e);
    if e.ApprovalRequested? {
      RequestProjects(e.approval.(verdict := Pending), e.approval);
    } else {
      DecidedAsSaid(st.approvals[e.approval.approvalId], e.approval);
    }
    hide Step, Blank, ValidApproval, ProjectableApproval, VerdictText, ApplyApproval;
  }

  /** An event that replay accepts, and that the tables have not seen, meets a ValueError
      exactly if the rows have no place for it. */
  lemma TakenIff(db: Tables, runId: string, st: RunState, r: EvidenceLog.Record)
    requires Step(runId, st, r.content).Some? && r.hash !in db.seen
    ensures Apply(db, r) == Failed_(ValueFault) <==> NoTaker(db, r.content)
  {
    var e := r.content;
    assert !e.Malformed?;
    hide Step, Handle, NoTaker;
    if e.SessionCreated? || e.SessionStatusChanged? {
      SessionTaken(db, runId, st, e, r.hash);
    } else if e.ToolCallRequested? || e.ToolCallStatusChanged? {
      CallTaken(db, runId, st, e, r.hash);
    } else if e.ApprovalRequested? || e.ApprovalDecided? {
      ApprovalTaken(db, runId, st, e, r.hash);
    } else {
      NobodyNeeded(db, e);
    }
  }

  lemma NobodyNeeded(db: Tables, e: Event)
    requires e.ToolIntent? || e.FactMapped? || e.ToolResulted? || e.WriteCheckpointed? || e.Noted?
    ensures !Projected(e) && !NoTaker(db, e)
  {
  }

  /** Exactly when projecting the last event of a trace that replay accepts raises: the database
      takes it, no rebuild has brought it already, and the rows have no place for it. That
      never happens to a run whose earlier events have all been applied in turn. */
  lemma AppendRaisesIff(s: Store, run: string, applyWorks: bool, rebuildWorks: bool)
    requires Tidy(s) && run in s.logs && s.logs[run] != []
    requires Fold(run, EvidenceLog.Contents(s.logs[run])).Some?
    ensures var n := |s.logs[run]| - 1;
            var r := s.logs[run][n];
            var outcome := ProjectAppended(s.db, run, s.logs[run], applyWorks, rebuildWorks);
            && (outcome == NotAtAll(true) <==> applyWorks && r.hash !in s.db.seen && NoTaker(s.db, r.content))
            && (outcome == NotAtAll(true) ==> run in s.stale || Reach(s, run) < n)
  {
    hide Tidy, Fold, Step, Apply, RebuiltRun, NoTaker, Clashes, EvidenceLog.Contents, ApplyAll, ProjectAppended;
    var records := s.logs[run];
    var n := |records| - 1;
    LastIsAccepted(run, records);
    FoldedRebuilds(s, run);
    ProjectedAs(s.db, run, records, applyWorks, rebuildWorks);
    AppliesIff(s.db, run, Fold(run, EvidenceLog.Contents(records[..n])).value, records[n]);
    if run !in s.stale && n <= Reach(s, run) {
      CaughtUpTakes(s, run);
    }
  }

  lemma CallClashes(db: Tables, runId: string, st: RunState, e: Event, source: EvidenceLog.Hash)
    requires Step(runId, st, e).Some? && !e.ApprovalRequested? && !e.ApprovalDecided? && Projected(e)
    ensures Handle(db, e, source) == Failed_(IntegrityFault) <==> Clashes(db, e)
  {
    SessionEffect(runId, st, e);
    CallEffect(runId, st, e);
    hide Step, Blank, ValidCall, StampText, CallEdge, ValidSession, SessionEdge;
  }

  lemma ApprovalClashes(db: Tables, runId: string, st: RunState, e: Event, source: EvidenceLog.Hash)
    requires Step(runId, st, e).Some? && (e.ApprovalRequested? || e.ApprovalDecided?)
    ensures Handle(db, e, source) == Failed_(IntegrityFault) <==> Clashes(db, e)
  {
    SessionEffect(runId, st, e);
    ApprovalEffect(runId, st, e);
    if e.ApprovalRequested? {
      RequestProjects(e.approval.(verdict := Pending), e.approval);
    }
    hide Step, Blank, ValidApproval, ProjectableApproval, VerdictText, ApplyApproval;
  }

  /** The database refuses the row of an event that replay accepts, and has not been seen. */
  lemma ClashIff(db: Tables, runId: string, st: RunState, r: EvidenceLog.Record)
    requires Step(runId, st, r.content).Some? && r.hash !in db.seen
    ensures Apply(db, r) == Failed_(IntegrityFault) <==> Clashes(db, r.content)
  {
    var e := r.content;
    hide Step, Handle, Clashes, Projected;
    if !Projected(e) {
      NotProjectedNoClash(db, e);
    } else if e.ApprovalRequested? || e.ApprovalDecided? {
      ApprovalClashes(db, runId, st, e, r.hash);
    } else {
      CallClashes(db, runId, st, e, r.hash);
    }
  }

  lemma NotProjectedNoClash(db: Tables, e: Event)
    requires !Projected(e)
    ensures !Clashes(db, e)
  {
  }

  /** What projecting the last event of such a trace comes to, in every case: by itself unless
      the rows have no place for it; by a rebuild of the run exactly where the database fails
      or refuses the row and the rebuild works; and all the rows of the trace are there after a
      rebuild, or if the earlier ones were. */
  lemma AppendProjects(s: Store, run: string, applyWorks: bool, rebuildWorks: bool)
    requires Tidy(s) && run in s.logs && s.logs[run] != []
    requires Fold(run, EvidenceLog.Contents(s.logs[run])).Some?
    ensures var n := |s.logs[run]| - 1;
            var r := s.logs[run][n];
            var outcome := ProjectAppended(s.db, run, s.logs[run], applyWorks, rebuildWorks);
            var unseen := r.hash !in s.db.seen;
            && (outcome.ByItself? <==>
                  applyWorks && !(unseen && (NoTaker(s.db, r.content) || Clashes(s.db, r.content))))
            && (outcome.ByRebuild? <==> rebuildWorks && (!applyWorks || (unseen && Clashes(s.db, r.content))))
            && (outcome.ByRebuild? || (outcome.ByItself? && run !in s.stale && n <= Reach(s, run)) ==>
                  Done(Slice(outcome.db, run)) == ApplyAll(EMPTY, s.logs[run]))
  {
    hide Tidy, Fold, Step, Apply, RebuiltRun, NoTaker, Clashes, EvidenceLog.Contents, Slice, ApplyAll, ProjectAppended;
    var records := s.logs[run];
    var n := |records| - 1;
    LastIsAccepted(run, records);
    FoldedRebuilds(s, run);
    ProjectedAs(s.db, run, records, applyWorks, rebuildWorks);
    AppliesIff(s.db, run, Fold(run, EvidenceLog.Contents(records[..n])).value, records[n]);
    RebuiltRows(s, run);
    if run !in s.stale && n <= Reach(s, run) && Apply(s.db, records[n]).Done? {
      LastRows(s, run);
    }
  }

  lemma ProjectedAs(db: Tables, run: string, records: seq<EvidenceLog.Record>, applyWorks: bool, rebuildWorks: bool)
    requires records != [] && RebuiltRun(db, run, records).Done?
    ensures var applied, rebuilt := Apply(db, records[|records| - 1]), RebuiltRun(db, run, records);
            ProjectAppended(db, run, records, applyWorks, rebuildWorks) ==
            if applyWorks && applied.Done? then ByItself(applied.db)
            else if applyWorks && applied == Failed_(ValueFault) then NotAtAll(true)
            else if rebuildWorks then ByRebuild(rebuilt.db)
            else NotAtAll(false)
  {
    hide Apply, RebuiltRun;
  }

  lemma AppliesIff(db: Tables, runId: string, st: RunState, r: EvidenceLog.Record)
    requires Step(runId, st, r.content).Some?
    ensures Apply(db, r) == Failed_(ValueFault) <==> r.hash !in db.seen && NoTaker(db, r.content)
    ensures Apply(db, r) == Failed_(IntegrityFault) <==> r.hash !in db.seen && Clashes(db, r.content)
    ensures Apply(db, r).Done? <==> !(r.hash !in db.seen && (NoTaker(db, r.content) || Clashes(db, r.content)))
  {
    hide Apply, Step, NoTaker, Clashes;
    assert Apply(db, r).Failed_? ==> Apply(db, r).fault == ValueFault || Apply(db, r).fault == IntegrityFault;
    if r.hash !in db.seen {
      TakenIff(db, runId, st, r);
      ClashIff(db, runId, st, r);
    } else {
      SeenIsDone(db, r);
    }
  }

  lemma RebuiltRows(s: Store, run: string)
    requires Tidy(s) && run in s.logs && RebuiltRun(s.db, run, s.logs[run]).Done?
    ensures Done(Slice(RebuiltRun(s.db, run, s.logs[run]).db, run)) == ApplyAll(EMPTY, s.logs[run])
  {
    hide Fine, Accounted, RebuiltRun, ApplyAll, Slice;
    var n := |s.logs[run]|;
    assert s.logs[run][..n] == s.logs[run];
    RebuildRunRepairs(s.db, s.logs, run, n, run + "'");
    assert TraceOf(s.logs, run) == s.logs[run];
  }

  lemma LastRows(s: Store, run: string)
    requires Tidy(s) && run in s.logs && s.logs[run] != [] && run !in s.stale && |s.logs[run]| - 1 <= Reach(s, run)
    requires Apply(s.db, s.logs[run][|s.logs[run]| - 1]).Done?
    ensures var db := Apply(s.db, s.logs[run][|s.logs[run]| - 1]).db;
            Done(Slice(db, run)) == ApplyAll(EMPTY, s.logs[run])
  {
    hide Tidy, Fine, Accounted, Apply, ApplyAll, Slice, Fold;
    TidyParts(s, run);
    var n, m := |s.logs[run]| - 1, Reach(s, run);
    if n < m {
      AppliedAgain(s.db, s.logs, run, m, n);
      assert s.logs[run][..m] == s.logs[run];
    } else {
      assert s.logs[run][n..n] == [];
      assert s.logs[run][..n + 1] == s.logs[run];
      AppliedInTurn(s.db, s.logs, run, n, n, run + "'");
    }
  }

  lemma SeenIsDone(db: Tables, r: EvidenceLog.Record)
    requires r.hash in db.seen
    ensures Apply(db, r) == Done(db)
  {
  }

  lemma LastIsAccepted(run: string, records: seq<EvidenceLog.Record>)
    requires records != [] && Fold(run, EvidenceLog.Contents(records)).Some?
    ensures var n := |records| - 1;
            && Fold(run, EvidenceLog.Contents(records[..n])).Some?
            && Step(run, Fold(run, EvidenceLog.Contents(records[..n])).value, records[n].content).Some?
  {
    var n := |records| - 1;
    ContentsSnoc(records);
    FoldSnoc(run, EvidenceLog.Contents(records[..n]), records[n].content);
  }

  /** A trace that replay accepts can always be rebuilt. */
  lemma FoldedRebuilds(s: Store, run: string)
    requires Tidy(s) && run in s.logs && Fold(run, EvidenceLog.Contents(s.logs[run])).Some?
    ensures RebuiltRun(s.db, run, s.logs[run]).Done? && ApplyAll(EMPTY, s.logs[run]).Done?
  {
    var n := |s.logs[run]|;
    ProjectionMirrorsReplay(run, s.logs[run]);
    hide Fine, Accounted, AtPrefix, Fold, RebuiltRun, Mirrors, ApplyAll;
    RebuildRunRepairs(s.db, s.logs, run, n, run + "'");
    assert s.logs[run][..n] == s.logs[run];
  }

  lemma TidyParts(s: Store, run: string)
    requires Tidy(s) && run !in s.stale
    ensures Fine(s.logs) && Accounted(s.db, s.logs) && AtPrefix(s.db, s.logs, run, Reach(s, run))
  {
    hide Fine, Accounted, AtPrefix;
  }

  /** A run whose earlier events have all been applied takes the last one. */
  lemma CaughtUpTakes(s: Store, run: string)
    requires Tidy(s) && run in s.logs && s.logs[run] != [] && run !in s.stale
    requires |s.logs[run]| - 1 <= Reach(s, run) && ApplyAll(EMPTY, s.logs[run]).Done?
    ensures Apply(s.db, s.logs[run][|s.logs[run]| - 1]).Done?
  {
    hide Tidy, Fine, Accounted, Apply, ApplyAll, AtPrefix, Fold;
    TidyParts(s, run);
    if |s.logs[run]| - 1 < Reach(s, run) {
      SeenTakes(s.db, s.logs, run, Reach(s, run));
    } else {
      NextTakes(s.db, s.logs, run);
    }
  }

  lemma SeenTakes(db: Tables, logs: Traces, run: string, n: nat)
    requires run in logs && logs[run] != [] && |logs[run]| <= n && AtPrefix(db, logs, run, n)
    ensures Apply(db, logs[run][|logs[run]| - 1]).Done?
  {
    hide Apply, AtPrefix;
    AppliedAgain(db, logs, run, n, |logs[run]| - 1);
  }

  lemma NextTakes(db: Tables, logs: Traces, run: string)
    requires Fine(logs) && Accounted(db, logs) && run in logs && logs[run] != []
    requires AtPrefix(db, logs, run, |logs[run]| - 1) && ApplyAll(EMPTY, logs[run]).Done?
    ensures Apply(db, logs[run][|logs[run]| - 1]).Done?
  {
    hide Fine, Accounted, Apply, Slice, ApplyAll, AtPrefix;
    var n := |logs[run]| - 1;
    assert logs[run][n..n] == [];
    assert logs[run][..n + 1] == logs[run];
    AppliedInTurn(db, logs, run, n, n, run + "'");
  }

  /** One locked database is enough: the request of a call misses the tables, and the append
      of the call's next status raises, with its event in the trace. */
  lemma MissedRequestRaisesNext(db: Tables, run: string, records: seq<EvidenceLog.Record>, request: EvidenceLog.Record,
                                status: EvidenceLog.Record, rebuildWorks: bool)
    requires request.content.ToolCallRequested? && status.content.ToolCallStatusChanged?
    requires request.content.call.callId == status.content.call.callId && status.content.call.runId == run
    requires (run, request.content.call.callId) !in db.calls && status.hash !in db.seen
    ensures ProjectAppended(db, run, records + [request], false, false) == NotAtAll(false)
    ensures ProjectAppended(db, run, records + [request] + [status], true, rebuildWorks) == NotAtAll(true)
  {
    hide RebuiltRun, Blank;
  }

  /** The same with the row there, but behind: the start of a wait misses the tables, the call's
      row stays at `requested`, and the append of its approval raises. */
  lemma MissedWaitRaisesNext(db: Tables, run: string, records: seq<EvidenceLog.Record>, waits: EvidenceLog.Record,
                             approved: EvidenceLog.Record, rebuildWorks: bool)
    requires waits.content.ToolCallStatusChanged? && waits.content.call.status == AwaitingApproval
    requires approved.content.ToolCallStatusChanged? && approved.content.call.status == Approved
    requires approved.content.call.callId == waits.content.call.callId && approved.content.call.runId == run
    requires (run, waits.content.call.callId) in db.calls && approved.hash !in db.seen
    requires db.calls[(run, waits.content.call.callId)].call.status == Requested
    ensures ProjectAppended(db, run, records + [waits], false, false) == NotAtAll(false)
    ensures ProjectAppended(db, run, records + [waits] + [approved], true, rebuildWorks) == NotAtAll(true)
  {
    hide RebuiltRun, Blank;
  }
}
