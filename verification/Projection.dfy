/** The SQL tables of sessions, calls and approvals, derived event by event from the traces. */
module Projection {
  import opened Texts
  import opened Lifecycle
  import opened Entities
  import opened EvidenceLog

  datatype SessionRow = SessionRow(session: AgentSession, source: Hash)

  datatype CallRow = CallRow(call: SessionToolCall, source: Hash)

  /** The approvals table has no column for the arguments preview. */
  datatype ApprovalRow = ApprovalRow(approval: ApprovalRequest, source: Hash)

  /** The four tables by primary key; `seen` gives the run of each projected event. */
  datatype Tables = Tables(
    sessions: map<string, SessionRow>,
    calls: map<(string, string), CallRow>,
    approvals: map<string, ApprovalRow>,
    seen: map<Hash, string>)

  const EMPTY := Tables(map[], map[], map[], map[])

  /** An integrity error of the database, or a ValueError of the handler. */
  datatype Fault = IntegrityFault | ValueFault

  datatype Handled = Done(db: Tables) | Failed_(fault: Fault)

  function ProjectSessionCreated(db: Tables, s: AgentSession, source: Hash): Handled {
    if s.runId in db.sessions || s.status != Created || !ValidSession(s) then Failed_(ValueFault)
    else Done(db.(sessions := db.sessions[s.runId := SessionRow(s, source)]))
  }

  function ProjectSessionStatus(db: Tables, s: AgentSession, source: Hash): Handled {
    if s.runId !in db.sessions || !StampText(s.updatedAt)
       || !SessionEdge(db.sessions[s.runId].session.status, s.status) then Failed_(ValueFault)
    else
      var row := db.sessions[s.runId].session.(status := s.status, updatedAt := s.updatedAt);
      Done(db.(sessions := db.sessions[s.runId := SessionRow(row, source)]))
  }

  function ProjectToolCallRequested(db: Tables, c: SessionToolCall, source: Hash): Handled {
    if c.status != Requested || !ValidCall(c) then Failed_(ValueFault)
    else if (c.runId, c.callId) in db.calls || c.runId !in db.sessions then Failed_(IntegrityFault)
    else Done(db.(calls := db.calls[(c.runId, c.callId) := CallRow(c, source)]))
  }

  function ProjectToolCallStatus(db: Tables, c: SessionToolCall, source: Hash): Handled {
    var key := (c.runId, c.callId);
    if key !in db.calls || !StampText(c.updatedAt) || !CallEdge(db.calls[key].call.status, c.status)
    then Failed_(ValueFault)
    else
      var row := db.calls[key].call.(status := c.status, updatedAt := c.updatedAt);
      Done(db.(calls := db.calls[key := CallRow(row, source)]))
  }

  predicate ProjectableApproval(a: ApprovalRequest) {
    && !Blank(a.approvalId) && !Blank(a.runId) && !Blank(a.callId) && !Blank(a.toolName)
    && DigestText(a.digest) && !Blank(a.reason) && OptionalText(a.policyRuleId)
    && StampText(a.requestedAt) && (a.expiresAt.Some? ==> StampText(a.expiresAt.value))
  }

  function ProjectApprovalRequested(db: Tables, a: ApprovalRequest, source: Hash): Handled {
    if !ProjectableApproval(a) then Failed_(ValueFault)
    else if a.approvalId in db.approvals || (a.runId, a.callId) !in db.calls then Failed_(IntegrityFault)
    else
      var row := ApprovalRow(a.(preview := map[], verdict := Pending), source);
      Done(db.(approvals := db.approvals[a.approvalId := row]))
  }

  /** The update is keyed by approval id and digest, not by run. */
  function ProjectApprovalDecided(db: Tables, d: ApprovalRequest, source: Hash): Handled {
    if d.verdict.Pending? || !VerdictText(d.verdict) || d.approvalId !in db.approvals
       || db.approvals[d.approvalId].approval.digest != d.digest
       || !db.approvals[d.approvalId].approval.verdict.Pending? then Failed_(ValueFault)
    else
      var row := db.approvals[d.approvalId].approval.(verdict := d.verdict);
      Done(db.(approvals := db.approvals[d.approvalId := ApprovalRow(row, source)]))
  }

  predicate Projected(e: Event) {
    || e.SessionCreated? || e.SessionStatusChanged? || e.ToolCallRequested? || e.ToolCallStatusChanged?
    || e.ApprovalRequested? || e.ApprovalDecided?
    || (e.Malformed? && e.kind in {"session_created", "session_status_changed", "tool_call_requested",
                                   "tool_call_status_changed", "approval_requested", "approval_decided"})
  }

  function Handle(db: Tables, e: Event, source: Hash): Handled
    requires Projected(e)
  {
    if Blank(RunOf(e)) then Failed_(ValueFault)
    else
      match e
      case SessionCreated(s) => ProjectSessionCreated(db, s, source)
      case SessionStatusChanged(s) => ProjectSessionStatus(db, s, source)
      case ToolCallRequested(c) => ProjectToolCallRequested(db, c, source)
      case ToolCallStatusChanged(c) => ProjectToolCallStatus(db, c, source)
      case ApprovalRequested(a) => ProjectApprovalRequested(db, a, source)
      case ApprovalDecided(d) => ProjectApprovalDecided(db, d, source)
      case _ => Failed_(ValueFault)
  }

  /** The rows have no place for the event: a session that is there already, or a session, call
      or approval that is missing, or is not in a state from which the event leads on. */
  predicate NoTaker(db: Tables, e: Event) {
    match e
    case SessionCreated(s) => s.runId in db.sessions
    case SessionStatusChanged(s) =>
      s.runId !in db.sessions || !SessionEdge(db.sessions[s.runId].session.status, s.status)
    case ToolCallStatusChanged(c) =>
      (c.runId, c.callId) !in db.calls || !CallEdge(db.calls[(c.runId, c.callId)].call.status, c.status)
    case ApprovalDecided(d) =>
      || d.approvalId !in db.approvals
      || db.approvals[d.approvalId].approval.digest != d.digest
      || !db.approvals[d.approvalId].approval.verdict.Pending?
    case _ => false
  }

  /** A new row that the database does not let in: it is there, or what it belongs to is not. */
  predicate Clashes(db: Tables, e: Event) {
    match e
    case ToolCallRequested(c) => (c.runId, c.callId) in db.calls || c.runId !in db.sessions
    case ApprovalRequested(a) => a.approvalId in db.approvals || (a.runId, a.callId) !in db.calls
    case _ => false
  }

  /** `_apply_event`: events of other types and events seen before change nothing. */
  function Apply(db: Tables, r: Record): Handled {
    if !Projected(r.content) || r.hash in db.seen then Done(db)
    else
      var next := Handle(db, r.content, r.hash);
      if next.Failed_? then next else Done(next.db.(seen := next.db.seen[r.hash := RunOf(r.content)]))
  }

  /** A transaction over several events: the first fault aborts it. */
  function ApplyAll(db: Tables, records: seq<Record>): Handled {
    if records == [] then Done(db)
    else
      var before := ApplyAll(db, records[..|records| - 1]);
      if before.Failed_? then before else Apply(before.db, records[|records| - 1])
  }

  /** What `rebuild_run` leaves before it replays the run's events. */
  function WithoutRun(db: Tables, runId: string): Tables {
    Tables(map k | k in db.sessions && k != runId :: db.sessions[k],
           map k | k in db.calls && k.0 != runId :: db.calls[k],
           map k | k in db.approvals && db.approvals[k].approval.runId != runId :: db.approvals[k],
           map h | h in db.seen && db.seen[h] != runId :: db.seen[h])
  }

  function SessionsOf(sessions: map<string, SessionRow>, run: string): (rows: map<string, SessionRow>)
    ensures forall k :: k in rows <==> k in sessions && k == run
    ensures forall k | k in rows :: rows[k] == sessions[k]
  {
    map k | k in sessions && k == run :: sessions[k]
  }

  function CallsOf(calls: map<(string, string), CallRow>, run: string): (rows: map<(string, string), CallRow>)
    ensures forall k :: k in rows <==> k in calls && k.0 == run
    ensures forall k | k in rows :: rows[k] == calls[k]
  {
    map k | k in calls && k.0 == run :: calls[k]
  }

  function ApprovalsOf(approvals: map<string, ApprovalRow>, run: string): (rows: map<string, ApprovalRow>)
    ensures forall k :: k in rows <==> k in approvals && approvals[k].approval.runId == run
    ensures forall k | k in rows :: rows[k] == approvals[k]
  {
    map k | k in approvals && approvals[k].approval.runId == run :: approvals[k]
  }

  function SeenOf(seen: map<Hash, string>, run: string): (rows: map<Hash, string>)
    ensures forall h :: h in rows <==> h in seen && seen[h] == run
    ensures forall h | h in rows :: rows[h] == run
  {
    map h | h in seen && seen[h] == run :: seen[h]
  }

  /** The rows of one run. */
  function Slice(db: Tables, runId: string): Tables {
    Tables(SessionsOf(db.sessions, runId),
           CallsOf(db.calls, runId),
           ApprovalsOf(db.approvals, runId),
           SeenOf(db.seen, runId))
  }

  // ----- One event touches one run -----

  /** The event's approval id and hash are not those of another run's rows. */
  predicate Separate(db: Tables, r: Record) {
    && (r.hash in db.seen ==> db.seen[r.hash] == RunOf(r.content))
    && (r.content.ApprovalRequested? || r.content.ApprovalDecided? ==>
          var k := r.content.approval.approvalId;
          k in db.approvals ==> db.approvals[k].approval.runId == RunOf(r.content))
  }

  lemma PutSession(db: Tables, run: string, row: SessionRow, other: string)
    requires other != run
    ensures var db' := db.(sessions := db.sessions[run := row]);
            && Slice(db', run) == Slice(db, run).(sessions := Slice(db, run).sessions[run := row])
            && Slice(db', other) == Slice(db, other)
  {
    hide SessionsOf;
    assert SessionsOf(db.sessions[run := row], run) == SessionsOf(db.sessions, run)[run := row];
    assert SessionsOf(db.sessions[run := row], other) == SessionsOf(db.sessions, other);
  }

  lemma PutCall(db: Tables, run: string, id: string, row: CallRow, other: string)
    requires other != run
    ensures var db' := db.(calls := db.calls[(run, id) := row]);
            && Slice(db', run) == Slice(db, run).(calls := Slice(db, run).calls[(run, id) := row])
            && Slice(db', other) == Slice(db, other)
  {
    hide CallsOf;
    var calls' := db.calls[(run, id) := row];
    assert CallsOf(calls', run) == CallsOf(db.calls, run)[(run, id) := row];
    assert CallsOf(calls', other) == CallsOf(db.calls, other);
  }

  lemma PutApproval(db: Tables, run: string, k: string, row: ApprovalRow, other: string)
    requires other != run && row.approval.runId == run
    requires k in db.approvals ==> db.approvals[k].approval.runId == run
    ensures var db' := db.(approvals := db.approvals[k := row]);
            && Slice(db', run) == Slice(db, run).(approvals := Slice(db, run).approvals[k := row])
            && Slice(db', other) == Slice(db, other)
  {
    hide ApprovalsOf;
    var approvals' := db.approvals[k := row];
    assert ApprovalsOf(approvals', run) == ApprovalsOf(db.approvals, run)[k := row];
    assert ApprovalsOf(approvals', other) == ApprovalsOf(db.approvals, other);
  }

  lemma PutSeen(db: Tables, run: string, h: Hash, other: string)
    requires other != run && (h in db.seen ==> db.seen[h] == run)
    ensures var db' := db.(seen := db.seen[h := run]);
            && Slice(db', run) == Slice(db, run).(seen := Slice(db, run).seen[h := run])
            && Slice(db', other) == Slice(db, other)
  {
    hide SeenOf;
    assert SeenOf(db.seen[h := run], run) == SeenOf(db.seen, run)[h := run];
    assert SeenOf(db.seen[h := run], other) == SeenOf(db.seen, other);
  }

  /** Handling an event and slicing commute, and other runs' rows stay as they were. */
  predicate Commutes(db: Tables, run: string, other: string, whole: Handled, part: Handled) {
    && whole.Done? == part.Done?
    && (whole.Failed_? ==> whole.fault == part.fault)
    && (whole.Done? ==> Slice(whole.db, run) == part.db && Slice(whole.db, other) == Slice(db, other)
                        && whole.db.seen == db.seen)
  }

  lemma SessionEventIsLocal(db: Tables, e: Event, source: Hash, other: string)
    requires (e.SessionCreated? || e.SessionStatusChanged?) && other != RunOf(e)
    ensures Commutes(db, RunOf(e), other, Handle(db, e, source), Handle(Slice(db, RunOf(e)), e, source))
  {
    hide Blank, ValidSession, SessionsOf, CallsOf, ApprovalsOf, SeenOf;
    var whole, run := Handle(db, e, source), RunOf(e);
    if whole.Done? {
      PutSession(db, run, whole.db.sessions[run], other);
    }
  }

  lemma CallEventIsLocal(db: Tables, e: Event, source: Hash, other: string)
    requires (e.ToolCallRequested? || e.ToolCallStatusChanged?) && other != RunOf(e)
    ensures Commutes(db, RunOf(e), other, Handle(db, e, source), Handle(Slice(db, RunOf(e)), e, source))
  {
    hide Blank, ValidCall, SessionsOf, CallsOf, ApprovalsOf, SeenOf;
    var whole, run := Handle(db, e, source), RunOf(e);
    if whole.Done? {
      PutCall(db, run, e.call.callId, whole.db.calls[(run, e.call.callId)], other);
    }
  }

  lemma ApprovalEventIsLocal(db: Tables, e: Event, source: Hash, other: string)
    requires (e.ApprovalRequested? || e.ApprovalDecided?) && other != RunOf(e)
    requires var k := e.approval.approvalId; k in db.approvals ==> db.approvals[k].approval.runId == RunOf(e)
    ensures Commutes(db, RunOf(e), other, Handle(db, e, source), Handle(Slice(db, RunOf(e)), e, source))
  {
    hide Blank, ProjectableApproval, SessionsOf, CallsOf, ApprovalsOf, SeenOf;
    var whole, run, k := Handle(db, e, source), RunOf(e), e.approval.approvalId;
    if whole.Done? {
      PutApproval(db, run, k, whole.db.approvals[k], other);
    }
  }

  lemma ApplyIsLocal(db: Tables, r: Record, other: string)
    requires Separate(db, r) && other != RunOf(r.content)
    ensures var run := RunOf(r.content);
            var whole, part := Apply(db, r), Apply(Slice(db, run), r);
            && whole.Done? == part.Done?
            && (whole.Failed_? ==> whole.fault == part.fault)
            && (whole.Done? ==> Slice(whole.db, run) == part.db && Slice(whole.db, other) == Slice(db, other))
  {
    var e, run := r.content, RunOf(r.content);
    if Projected(e) && r.hash !in db.seen {
      if e.SessionCreated? || e.SessionStatusChanged? {
        SessionEventIsLocal(db, e, r.hash, other);
      } else if e.ToolCallRequested? || e.ToolCallStatusChanged? {
        CallEventIsLocal(db, e, r.hash, other);
      } else if e.ApprovalRequested? || e.ApprovalDecided? {
        ApprovalEventIsLocal(db, e, r.hash, other);
      }
      var next := Handle(db, e, r.hash);
      hide Handle, Slice;
      if next.Done? {
        PutSeen(next.db, run, r.hash, other);
      }
    }
  }
}
