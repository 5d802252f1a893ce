/** The tables agree with replay, and with a rebuild, whatever was applied in whatever order. */
module ProjectionProofs {
  import opened Texts
  import opened Lifecycle
  import opened Entities
  import opened Replay
  import opened EvidenceLog
  import opened LifetimeProofs
  import opened Projection
  import opened Agreement

  // ----- The tables of one run are its replayed entities -----

  ghost predicate SessionMirrors(rows: map<string, SessionRow>, runId: string, session: Option<AgentSession>) {
    && rows.Keys == (if session.Some? then {runId} else {})
    && (session.Some? ==> rows[runId].session == session.value)
  }

  ghost predicate CallsMirror(rows: map<(string, string), CallRow>, runId: string, calls: map<string, SessionToolCall>)
  {
    && (forall k :: k in rows <==> k.0 == runId && k.1 in calls)
    && (forall id | id in calls :: rows[(runId, id)].call == calls[id])
  }

  ghost predicate ApprovalsMirror(rows: map<string, ApprovalRow>, approvals: map<string, ApprovalRequest>) {
    && rows.Keys == approvals.Keys
    && (forall k | k in approvals :: rows[k].approval == approvals[k].(preview := map[]))
  }

  ghost predicate Mirrors(db: Tables, runId: string, st: RunState) {
    && SessionMirrors(db.sessions, runId, st.session)
    && CallsMirror(db.calls, runId, st.calls)
    && ApprovalsMirror(db.approvals, st.approvals)
  }

  lemma MirrorsSession(db: Tables, runId: string, st: RunState, r: Record)
    requires Mirrors(db, runId, st) && Step(runId, st, r.content).Some? && OwnSession(runId, st)
    requires r.content.SessionCreated? || r.content.SessionStatusChanged?
    ensures var h := Handle(db, r.content, r.hash);
            h.Done? && Mirrors(h.db, runId, Step(runId, st, r.content).value) && h.db.seen == db.seen
  {
    SessionEffect(runId, st, r.content);
    hide Blank, ValidSession, Step, SessionEdge, StampText, CallsMirror, ApprovalsMirror;
  }

  lemma MirrorsNewCall(db: Tables, runId: string, st: RunState, r: Record)
    requires Mirrors(db, runId, st) && Step(runId, st, r.content).Some? && OwnSession(runId, st)
    requires r.content.ToolCallRequested?
    ensures var h := Handle(db, r.content, r.hash);
            h.Done? && Mirrors(h.db, runId, Step(runId, st, r.content).value) && h.db.seen == db.seen
  {
    SessionEffect(runId, st, r.content);
    CallEffect(runId, st, r.content);
    hide Blank, ValidSession, ValidCall, Step, ApprovalsMirror;
  }

  lemma MirrorsCallStatus(db: Tables, runId: string, st: RunState, r: Record)
    requires Mirrors(db, runId, st) && Step(runId, st, r.content).Some? && OfRun(runId, st.calls)
    requires r.content.ToolCallStatusChanged?
    ensures var h := Handle(db, r.content, r.hash);
            h.Done? && Mirrors(h.db, runId, Step(runId, st, r.content).value) && h.db.seen == db.seen
  {
    SessionEffect(runId, st, r.content);
    CallEffect(runId, st, r.content);
    hide Blank, ValidSession, Step, CallEdge, StampText, SessionMirrors, ApprovalsMirror;
  }

  lemma MirrorsRequest(db: Tables, runId: string, st: RunState, r: Record)
    requires Mirrors(db, runId, st) && Step(runId, st, r.content).Some?
    requires r.content.ApprovalRequested?
    ensures var h := Handle(db, r.content, r.hash);
            h.Done? && Mirrors(h.db, runId, Step(runId, st, r.content).value) && h.db.seen == db.seen
  {
    var a := r.content.approval.(verdict := Pending);
    SessionEffect(runId, st, r.content);
    ApprovalEffect(runId, st, r.content);
    RequestProjects(a, r.content.approval);
    RequestMirrored(db.approvals, st.approvals, a, r.hash);
    CallMirrored(db.calls, runId, st.calls, a.callId);
    hide Blank, Asked, Step, ValidApproval, ProjectableApproval, SessionMirrors, CallsMirror, ApprovalsMirror;
  }

  lemma RequestMirrored(rows: map<string, ApprovalRow>, approvals: map<string, ApprovalRequest>, a: ApprovalRequest,
                        source: Hash)
    requires ApprovalsMirror(rows, approvals) && a.verdict.Pending?
    ensures a.approvalId in rows <==> a.approvalId in approvals
    ensures ApprovalsMirror(rows[a.approvalId := ApprovalRow(a.(preview := map[]), source)],
                            approvals[a.approvalId := a])
  {
  }

  lemma CallMirrored(rows: map<(string, string), CallRow>, runId: string, calls: map<string, SessionToolCall>,
                     id: string)
    requires CallsMirror(rows, runId, calls)
    ensures (runId, id) in rows <==> id in calls
  {
  }

  /** What replay accepts as a request, the projection accepts too. */
  lemma RequestProjects(a: ApprovalRequest, request: ApprovalRequest)
    requires ValidApproval(a) && a == request.(verdict := Pending)
    ensures ProjectableApproval(request)
  {
    hide Blank;
  }

  /** Replay decides an approval only as the event says, and only a pending one. */
  lemma DecidedAsSaid(current: ApprovalRequest, d: ApprovalRequest)
    requires ApplyApproval(current, d).Some?
    ensures current.verdict.Pending? && !d.verdict.Pending? && VerdictText(d.verdict) && d.digest == current.digest
    ensures ApplyApproval(current, d).value == current.(verdict := d.verdict)
  {
  }

  lemma MirrorsDecision(db: Tables, runId: string, st: RunState, r: Record)
    requires Mirrors(db, runId, st) && Step(runId, st, r.content).Some?
    requires r.content.ApprovalDecided?
    ensures var h := Handle(db, r.content, r.hash);
            h.Done? && Mirrors(h.db, runId, Step(runId, st, r.content).value) && h.db.seen == db.seen
  {
    var d := r.content.approval;
    SessionEffect(runId, st, r.content);
    ApprovalEffect(runId, st, r.content);
    DecidedAsSaid(st.approvals[d.approvalId], d);
    hide Blank, ApplyApproval, VerdictText, Step, SessionMirrors, CallsMirror;
  }

  lemma MirrorsRest(db: Tables, runId: string, st: RunState, e: Event)
    requires Mirrors(db, runId, st) && Step(runId, st, e).Some?
    requires e.ToolIntent? || e.FactMapped? || e.ToolResulted? || e.WriteCheckpointed? || e.Noted?
    ensures Mirrors(db, runId, Step(runId, st, e).value) && !Projected(e)
  {
    hide Blank;
  }

  lemma HandledStep(db: Tables, runId: string, st: RunState, r: Record)
    requires Mirrors(db, runId, st) && Step(runId, st, r.content).Some? && Projected(r.content)
    requires OwnSession(runId, st) && OfRun(runId, st.calls) && OwnApprovals(runId, st.approvals)
    ensures var h := Handle(db, r.content, r.hash);
            h.Done? && Mirrors(h.db, runId, Step(runId, st, r.content).value) && h.db.seen == db.seen
  {
    var e := r.content;
    assert !e.Malformed?;
    hide Handle, Step, Mirrors, OwnSession, OfRun, OwnApprovals;
    if e.SessionCreated? || e.SessionStatusChanged? {
      MirrorsSession(db, runId, st, r);
    } else if e.ToolCallRequested? {
      MirrorsNewCall(db, runId, st, r);
    } else if e.ToolCallStatusChanged? {
      MirrorsCallStatus(db, runId, st, r);
    } else if e.ApprovalRequested? {
      MirrorsRequest(db, runId, st, r);
    } else {
      MirrorsDecision(db, runId, st, r);
    }
  }

  lemma MirrorsStep(db: Tables, runId: string, st: RunState, r: Record)
    requires Mirrors(db, runId, st) && Step(runId, st, r.content).Some?
    requires OwnSession(runId, st) && OfRun(runId, st.calls) && OwnApprovals(runId, st.approvals)
    requires r.hash !in db.seen
    ensures var h := Apply(db, r);
            && h.Done? && Mirrors(h.db, runId, Step(runId, st, r.content).value)
            && h.db.seen.Keys <= db.seen.Keys + {r.hash}
  {
    if Projected(r.content) {
      HandledStep(db, runId, st, r);
      hide Handle, Step, Blank;
    } else {
      assert !r.content.Malformed?;
      MirrorsRest(db, runId, st, r.content);
    }
  }

  predicate Lists(records: seq<Record>, h: Hash) {
    exists i | 0 <= i < |records| :: records[i].hash == h
  }

  lemma ContentsSnoc(records: seq<Record>)
    requires records != []
    ensures Contents(records) == Contents(records[..|records| - 1]) + [records[|records| - 1].content]
  {
  }

  /** Each valid chain that replay folds is projected without a fault, and its rows are the
      replayed session, calls and approvals. De-duplication never drops an event of it, as no
      two of its hashes are equal. */
  lemma {:induction false} ProjectionMirrorsReplay(runId: string, records: seq<Record>)
    requires Chained(records) && Fold(runId, Contents(records)).Some?
    ensures var p := ApplyAll(EMPTY, records);
            && p.Done? && Mirrors(p.db, runId, Fold(runId, Contents(records)).value)
            && forall h | h in p.db.seen :: Lists(records, h)
  {
    if records != [] {
      var n := |records| - 1;
      var shorter, last := records[..n], records[n];
      ChainedPrefix(records, n);
      ContentsSnoc(records);
      FoldSnoc(runId, Contents(shorter), last.content);
      ProjectionMirrorsReplay(runId, shorter);
      OwnState(runId, Contents(shorter));
      var before := ApplyAll(EMPTY, shorter).db;
      forall h | Lists(shorter, h)
        ensures Lists(records, h) && h != last.hash
      {
        var i :| 0 <= i < n && shorter[i].hash == h;
        assert records[i].hash == h;
        HashesAreDistinct(records, i, n);
      }
      MirrorsStep(before, runId, Fold(runId, Contents(shorter)).value, last);
      hide Apply, Fold, Step, Mirrors, Chained;
      assert ApplyAll(EMPTY, records) == Apply(before, last);
      assert records[n].hash == last.hash;
    }
  }
}
