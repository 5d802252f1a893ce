/** Rebuilding the state of a run from its evidence events. */
module Replay {
  import opened Texts
  import opened Lifecycle
  import opened Entities

  datatype RunState = RunState(
    session: Option<AgentSession>,
    calls: map<string, SessionToolCall>,
    approvals: map<string, ApprovalRequest>,
    arguments: map<string, Arguments>,
    facts: seq<Fact>)

  const NOTHING := RunState(None, map[], map[], map[], [])

  function ApplySession(current: AgentSession, next: AgentSession): Option<AgentSession> {
    if SameSession(next, current) && StampText(next.updatedAt) && SessionEdge(current.status, next.status)
    then Some(next) else None
  }

  function ApplyCall(current: SessionToolCall, next: SessionToolCall): Option<SessionToolCall> {
    if SameCall(next, current) && StampText(next.updatedAt) && CallEdge(current.status, next.status)
    then Some(next) else None
  }

  /** A decided approval event is re-decided: a denial for the reserved reason is an expiry. */
  function ApplyApproval(current: ApprovalRequest, next: ApprovalRequest): Option<ApprovalRequest> {
    if !SameApproval(next, current) || next.verdict.Pending? || !VerdictText(next.verdict) then None
    else if next.verdict.Denial? && next.verdict.reason == EXPIRY_REASON then
      Expire(current, next.verdict.approver, next.verdict.at)
    else Decide(current, next.verdict)
  }

  predicate Asked(approvals: map<string, ApprovalRequest>, callId: string) {
    exists k | k in approvals :: approvals[k].callId == callId
  }

  predicate AcceptsCall(st: RunState, c: SessionToolCall) {
    && st.session.Some? && ValidCall(c) && c.status == Requested
    && c.runId == st.session.value.runId && c.sessionId == st.session.value.sessionId
    && c.callId !in st.calls
  }

  predicate AcceptsIntent(st: RunState, callId: string, toolName: string, arguments: Arguments) {
    && !Blank(callId) && !Blank(toolName)
    && (callId in st.arguments ==> st.arguments[callId] == arguments)
    && (callId in st.calls ==> st.calls[callId].toolName == toolName)
  }

  predicate AcceptsApproval(st: RunState, a: ApprovalRequest) {
    && ValidApproval(a) && a.approvalId !in st.approvals
    && a.callId in st.calls
    && st.calls[a.callId].toolName == a.toolName && st.calls[a.callId].digest == a.digest
    && !Asked(st.approvals, a.callId)
  }

  /** What one event does to the state; None where replay raises. The check of the facts
      themselves is in Replayed below: it never depends on what comes before. */
  function Step(runId: string, st: RunState, e: Event): Option<RunState> {
    if Blank(RunOf(e)) || RunOf(e) != runId then None
    else
      match e
      case SessionCreated(s) =>
        if st.session.None? && s.status == Created && ValidSession(s)
        then Some(st.(session := Some(s))) else None
      case SessionStatusChanged(s) =>
        if st.session.None? then None
        else
          var next := ApplySession(st.session.value, s);
          if next.None? then None else Some(st.(session := next))
      case ToolCallRequested(c) =>
        if AcceptsCall(st, c) then Some(st.(calls := st.calls[c.callId := c])) else None
      case ToolCallStatusChanged(c) =>
        if c.callId !in st.calls then None
        else
          var next := ApplyCall(st.calls[c.callId], c);
          if next.None? then None else Some(st.(calls := st.calls[c.callId := next.value]))
      case ToolIntent(_, id, tool, args) =>
        if AcceptsIntent(st, id, tool, args)
        then Some(st.(arguments := st.arguments[id := args])) else None
      case ApprovalRequested(request) =>
        var a := request.(verdict := Pending);
        if AcceptsApproval(st, a) then Some(st.(approvals := st.approvals[a.approvalId := a])) else None
      case ApprovalDecided(d) =>
        if d.approvalId !in st.approvals then None
        else
          var next := ApplyApproval(st.approvals[d.approvalId], d);
          if next.None? then None else Some(st.(approvals := st.approvals[d.approvalId := next.value]))
      case FactMapped(_, facts) => Some(st.(facts := st.facts + facts))
      case Malformed(_, _) => None
      case _ => Some(st)
  }

  function Fold(runId: string, log: seq<Event>): Option<RunState> {
    if log == [] then Some(NOTHING)
    else
      var before := Fold(runId, log[..|log| - 1]);
      if before.None? then None else Step(runId, before.value, log[|log| - 1])
  }

  /** The call's arguments are on record and are the ones its digest binds. */
  predicate Backed(st: RunState, callId: string) {
    callId in st.calls && callId in st.arguments && OfArguments(st.arguments[callId]) == st.calls[callId].digest
  }

  predicate AllBacked(st: RunState) {
    forall id | id in st.calls :: Backed(st, id)
  }

  /** `replay_events`: None where it raises. */
  function Replayed(runId: string, log: seq<Event>): Option<RunState> {
    var st := Fold(runId, log);
    if st.Some? && st.value.session.Some? && AllBacked(st.value) && Readable(st.value.facts) then st else None
  }

  // ----- Folding a longer log -----

  lemma FoldSnoc(runId: string, log: seq<Event>, e: Event)
    ensures Fold(runId, log + [e]) ==
            if Fold(runId, log).None? then None else Step(runId, Fold(runId, log).value, e)
  {
    assert (log + [e])[..|log|] == log;
  }

  /** Nothing that was read before changes later: calls only move along their table, facts
      and arguments only accumulate, and a decided approval stays as it was decided. */
  ghost predicate Later(a: RunState, b: RunState) {
    && (a.session.Some? ==> b.session.Some? && SameSession(a.session.value, b.session.value))
    && (forall id | id in a.calls ::
          id in b.calls && SameCall(a.calls[id], b.calls[id])
          && (a.calls[id] == b.calls[id] || Rank(a.calls[id].status) < Rank(b.calls[id].status)))
    && (forall k | k in a.approvals ::
          k in b.approvals && SameApproval(a.approvals[k], b.approvals[k])
          && (a.approvals[k] == b.approvals[k] || a.approvals[k].verdict.Pending?))
    && (forall id | id in a.arguments :: id in b.arguments && a.arguments[id] == b.arguments[id])
    && a.facts <= b.facts
  }

  // ----- What one event can do, field by field -----

  lemma SessionEffect(runId: string, st: RunState, e: Event)
    requires Step(runId, st, e).Some?
    ensures RunOf(e) == runId && !Blank(runId)
    ensures var st' := Step(runId, st, e).value;
            if e.SessionCreated? then
              && st.session.None? && e.session.status == Created && ValidSession(e.session)
              && st' == st.(session := Some(e.session))
            else if e.SessionStatusChanged? then
              && st.session.Some? && ApplySession(st.session.value, e.session) == Some(e.session)
              && st' == st.(session := Some(e.session))
            else st'.session == st.session
  {
    hide Blank, ValidSession, ValidCall, ApplyApproval, AcceptsApproval;
  }

  lemma CallEffect(runId: string, st: RunState, e: Event)
    requires Step(runId, st, e).Some?
    ensures var st' := Step(runId, st, e).value;
            if e.ToolCallRequested? then
              && e.call.callId !in st.calls && e.call.status == Requested && AcceptsCall(st, e.call)
              && st' == st.(calls := st.calls[e.call.callId := e.call])
            else if e.ToolCallStatusChanged? then
              && e.call.callId in st.calls && ApplyCall(st.calls[e.call.callId], e.call) == Some(e.call)
              && st' == st.(calls := st.calls[e.call.callId := e.call])
            else st'.calls == st.calls
  {
    hide Blank, ValidSession, ValidCall, ApplyApproval, AcceptsApproval;
  }

  /** What one event can do to the approvals. */
  lemma ApprovalEffect(runId: string, st: RunState, e: Event)
    requires Step(runId, st, e).Some?
    ensures var st' := Step(runId, st, e).value;
            if e.ApprovalRequested? then
                 var a := e.approval.(verdict := Pending);
                 AcceptsApproval(st, a) && st' == st.(approvals := st.approvals[a.approvalId := a])
               else if e.ApprovalDecided? then
                 var k := e.approval.approvalId;
                 && k in st.approvals
                 && var next := ApplyApproval(st.approvals[k], e.approval);
                    next.Some? && st' == st.(approvals := st.approvals[k := next.value])
               else st'.approvals == st.approvals
  {
    hide Blank, ValidSession, ValidCall, ApplyApproval, AcceptsApproval;
  }

  lemma RecordEffect(runId: string, st: RunState, e: Event)
    requires Step(runId, st, e).Some?
    ensures var st' := Step(runId, st, e).value;
            && (if e.ToolIntent? then
                  && AcceptsIntent(st, e.callId, e.toolName, e.arguments)
                  && st' == st.(arguments := st.arguments[e.callId := e.arguments])
                else st'.arguments == st.arguments)
            && st'.facts == st.facts + (if e.FactMapped? then e.facts else [])
  {
    hide Blank, ValidSession, ValidCall, ApplyApproval, AcceptsApproval;
  }

  lemma ApprovalMovesOn(current: ApprovalRequest, next: ApprovalRequest)
    requires ApplyApproval(current, next).Some?
    ensures SameApproval(ApplyApproval(current, next).value, current) && current.verdict.Pending?
  {
    hide Blank;
  }

  lemma CallsMoveOn(runId: string, st: RunState, e: Event, id: string)
    requires Step(runId, st, e).Some? && id in st.calls
    ensures var st' := Step(runId, st, e).value;
            && id in st'.calls && SameCall(st.calls[id], st'.calls[id])
            && (st.calls[id] == st'.calls[id] || Rank(st.calls[id].status) < Rank(st'.calls[id].status))
  {
    CallEffect(runId, st, e);
    hide Step, Blank, AcceptsCall, StampText;
  }

  lemma ApprovalsMoveOn(runId: string, st: RunState, e: Event, k: string)
    requires Step(runId, st, e).Some? && k in st.approvals
    ensures var st' := Step(runId, st, e).value;
            && k in st'.approvals && SameApproval(st.approvals[k], st'.approvals[k])
            && (st.approvals[k] == st'.approvals[k] || st.approvals[k].verdict.Pending?)
  {
    ApprovalEffect(runId, st, e);
    hide Step, AcceptsApproval, ApplyApproval;
    if e.ApprovalDecided? {
      ApprovalMovesOn(st.approvals[e.approval.approvalId], e.approval);
    }
  }

  lemma StepMovesOn(runId: string, st: RunState, e: Event)
    requires Step(runId, st, e).Some?
    ensures Later(st, Step(runId, st, e).value)
  {
    SessionEffect(runId, st, e);
    RecordEffect(runId, st, e);
    hide Step, Blank, ValidSession, StampText, SameCall, SameApproval;
    forall id | id in st.calls {
      CallsMoveOn(runId, st, e, id);
    }
    forall k | k in st.approvals {
      ApprovalsMoveOn(runId, st, e, k);
    }
  }

  lemma {:induction false} PrefixFolds(runId: string, log: seq<Event>, n: nat)
    requires n <= |log| && Fold(runId, log).Some?
    ensures Fold(runId, log[..n]).Some?
    ensures Later(Fold(runId, log[..n]).value, Fold(runId, log).value)
    decreases |log|
  {
    if n == |log| {
      assert log[..n] == log;
    } else {
      var shorter := log[..|log| - 1];
      PrefixFolds(runId, shorter, n);
      assert shorter[..n] == log[..n];
      StepMovesOn(runId, Fold(runId, shorter).value, log[|log| - 1]);
    }
  }

  /** The state just after event i of a log that folds. */
  lemma FoldAt(runId: string, log: seq<Event>, i: nat)
    requires i < |log| && Fold(runId, log).Some?
    ensures Fold(runId, log[..i]).Some? && Fold(runId, log[..i + 1]).Some?
    ensures Fold(runId, log[..i + 1]) == Step(runId, Fold(runId, log[..i]).value, log[i])
    ensures Later(Fold(runId, log[..i]).value, Fold(runId, log).value)
    ensures Later(Fold(runId, log[..i + 1]).value, Fold(runId, log).value)
  {
    PrefixFolds(runId, log, i);
    PrefixFolds(runId, log, i + 1);
    assert log[..i + 1] == log[..i] + [log[i]];
    FoldSnoc(runId, log[..i], log[i]);
  }

  // ----- The loop -----

  /** The loop of `replay_events`, with each check where the source makes it. */
  method ReplayEvents(events: seq<Event>, expectedRunId: string) returns (r: Option<RunState>)
    ensures r == Replayed(expectedRunId, events)
  {
    hide Blank, ValidSession, ValidCall, ValidApproval, StampText, VerdictText, ReadableFact;
    hide Fold, Later, Replayed;
    var session: Option<AgentSession> := None;
    var toolCalls: map<string, SessionToolCall> := map[];
    var approvals: map<string, ApprovalRequest> := map[];
    var argumentsByCall: map<string, Arguments> := map[];
    var facts: seq<Fact> := [];
    assert events[..0] == [];
    NothingYet(expectedRunId);
    for i := 0 to |events|
      invariant Fold(expectedRunId, events[..i]) ==
                Some(RunState(session, toolCalls, approvals, argumentsByCall, facts))
      invariant Readable(facts)
    {
      var event := events[i];
      ghost var before := RunState(session, toolCalls, approvals, argumentsByCall, facts);
      assert events[..i + 1] == events[..i] + [event];
      FoldSnoc(expectedRunId, events[..i], event);
      RaisesForGood(expectedRunId, events, i + 1);
      if Blank(RunOf(event)) || RunOf(event) != expectedRunId {
        return None;
      }
      match event {
        case SessionCreated(s) =>
          if session.Some? || s.status != Created || !ValidSession(s) {
            return None;
          }
          session := Some(s);
        case SessionStatusChanged(s) =>
          if session.None? {
            return None;
          }
          var next := ApplySession(session.value, s);
          if next.None? {
            return None;
          }
          session := next;
        case ToolCallRequested(c) =>
          if session.None? || !ValidCall(c) || c.status != Requested
             || c.runId != session.value.runId || c.sessionId != session.value.sessionId
             || c.callId in toolCalls {
            return None;
          }
          toolCalls := toolCalls[c.callId := c];
        case ToolCallStatusChanged(c) =>
          if c.callId !in toolCalls {
            return None;
          }
          var next := ApplyCall(toolCalls[c.callId], c);
          if next.None? {
            return None;
          }
          toolCalls := toolCalls[c.callId := next.value];
        case ToolIntent(_, id, tool, args) =>
          if Blank(id) || Blank(tool) || (id in argumentsByCall && argumentsByCall[id] != args) {
            return None;
          }
          argumentsByCall := argumentsByCall[id := args];
          if id in toolCalls && toolCalls[id].toolName != tool {
            return None;
          }
        case ApprovalRequested(request) =>
          var a := request.(verdict := Pending);
          if !ValidApproval(a) || a.approvalId in approvals || a.callId !in toolCalls
             || toolCalls[a.callId].toolName != a.toolName || toolCalls[a.callId].digest != a.digest
             || Asked(approvals, a.callId) {
            return None;
          }
          approvals := approvals[a.approvalId := a];
        case ApprovalDecided(d) =>
          if d.approvalId !in approvals {
            return None;
          }
          var next := ApplyApproval(approvals[d.approvalId], d);
          if next.None? {
            return None;
          }
          approvals := approvals[d.approvalId := next.value];
        case FactMapped(_, mapped) =>
          facts := facts + mapped;
          if !Readable(mapped) {
            UnreadableStays(expectedRunId, events, i);
            return None;
          }
        case Malformed(_, _) =>
          return None;
        case _ =>
      }
      assert Step(expectedRunId, before, event) ==
             Some(RunState(session, toolCalls, approvals, argumentsByCall, facts));
    }
    assert events[..|events|] == events;
    ReplayedIs(expectedRunId, events, RunState(session, toolCalls, approvals, argumentsByCall, facts));
    if session.None? {
      return None;
    }
    var unchecked := toolCalls.Keys;
    while unchecked != {}
      invariant unchecked <= toolCalls.Keys
      invariant forall id | id in toolCalls && id !in unchecked ::
          Backed(RunState(session, toolCalls, approvals, argumentsByCall, facts), id)
    {
      var id :| id in unchecked;
      if id !in argumentsByCall || OfArguments(argumentsByCall[id]) != toolCalls[id].digest {
        assert !Backed(RunState(session, toolCalls, approvals, argumentsByCall, facts), id);
        return None;
      }
      unchecked := unchecked - {id};
    }
    r := Some(RunState(session, toolCalls, approvals, argumentsByCall, facts));
  }

  lemma NothingYet(runId: string)
    ensures Fold(runId, []) == Some(NOTHING)
  {
  }

  /** Once a prefix of a log does not fold, replay raises. */
  lemma RaisesForGood(runId: string, log: seq<Event>, n: nat)
    requires n <= |log|
    ensures Fold(runId, log[..n]).None? ==> Replayed(runId, log).None?
  {
    if Fold(runId, log).Some? {
      PrefixFolds(runId, log, n);
    }
  }

  lemma ReplayedIs(runId: string, log: seq<Event>, st: RunState)
    requires Fold(runId, log) == Some(st) && Readable(st.facts)
    ensures Replayed(runId, log) == if st.session.Some? && AllBacked(st) then Some(st) else None
  {
  }

  lemma UnreadableStays(runId: string, log: seq<Event>, i: nat)
    requires i < |log| && log[i].FactMapped? && !Readable(log[i].facts)
    ensures Replayed(runId, log).None?
  {
    var st := Fold(runId, log);
    if st.Some? {
      FoldAt(runId, log, i);
      var before := Fold(runId, log[..i]).value;
      RecordEffect(runId, before, log[i]);
      hide Fold, Step, AllBacked, ReadableFact;
      var j :| 0 <= j < |log[i].facts| && !ReadableFact(log[i].facts[j]);
      assert st.value.facts[|before.facts| + j] == log[i].facts[j];
    }
  }
}
