/** Which logs replay accepts, said of the events alone: a condition on each event and the ones
    before it, with no state in between. */
module ReplayConditions {
  import opened Texts
  import opened Lifecycle
  import opened Entities
  import opened Replay

  // ----- What the events before one say -----

  predicate Creates(e: Event, sessionId: string) { e.SessionCreated? && e.session.sessionId == sessionId }

  predicate Requests(e: Event, callId: string) { e.ToolCallRequested? && e.call.callId == callId }

  predicate Intends(e: Event, callId: string) { e.ToolIntent? && e.callId == callId }

  predicate AsksFor(e: Event, callId: string) { e.ApprovalRequested? && e.approval.callId == callId }

  predicate Opens(e: Event, approvalId: string) { e.ApprovalRequested? && e.approval.approvalId == approvalId }

  predicate Settles(e: Event, approvalId: string) { e.ApprovalDecided? && e.approval.approvalId == approvalId }

  /** The session as the last event about it shows it. */
  function LatestSession(log: seq<Event>): Option<AgentSession> {
    if log == [] then None
    else
      var e := log[|log| - 1];
      if e.SessionCreated? || e.SessionStatusChanged? then Some(e.session) else LatestSession(log[..|log| - 1])
  }

  /** The same for a call. */
  function LatestCall(log: seq<Event>, callId: string): Option<SessionToolCall> {
    if log == [] then None
    else
      var e := log[|log| - 1];
      if (e.ToolCallRequested? || e.ToolCallStatusChanged?) && e.call.callId == callId then Some(e.call)
      else LatestCall(log[..|log| - 1], callId)
  }

  /** A decision comes in time: a denial for the reserved reason once the request has run out,
      and any other verdict before. */
  predicate InTime(a: ApprovalRequest) {
    var v := a.verdict;
    if v.Denial? && v.reason == EXPIRY_REASON then
      a.expiresAt.Some? && a.expiresAt.value.At? && v.at.At? && a.expiresAt.value.instant <= v.at.instant
    else
      !v.Pending?
      && (a.expiresAt.Some? ==>
            a.expiresAt.value.At? && v.at.At? && v.at.instant < a.expiresAt.value.instant)
  }

  /** The event may follow these. */
  predicate Fits(runId: string, before: seq<Event>, e: Event) {
    && RunOf(e) == runId && !Blank(runId)
    && match e
       case SessionCreated(s) =>
         && (forall i | 0 <= i < |before| :: !before[i].SessionCreated?)
         && s.status == Created && ValidSession(s)
       case SessionStatusChanged(s) =>
         var last := LatestSession(before);
         && last.Some? && SameSession(s, last.value) && StampText(s.updatedAt)
         && SessionEdge(last.value.status, s.status)
       case ToolCallRequested(c) =>
         && ValidCall(c) && c.status == Requested
         && (exists i | 0 <= i < |before| :: Creates(before[i], c.sessionId))
         && (forall i | 0 <= i < |before| :: !Requests(before[i], c.callId))
       case ToolCallStatusChanged(c) =>
         var last := LatestCall(before, c.callId);
         && last.Some? && SameCall(c, last.value) && StampText(c.updatedAt) && CallEdge(last.value.status, c.status)
       case ToolIntent(_, id, tool, arguments) =>
         && !Blank(id) && !Blank(tool)
         && (forall i | 0 <= i < |before| && Intends(before[i], id) :: before[i].arguments == arguments)
         && (forall i | 0 <= i < |before| && Requests(before[i], id) :: before[i].call.toolName == tool)
       case ApprovalRequested(a) =>
         && ValidApproval(a.(verdict := Pending))
         && (forall i | 0 <= i < |before| :: !Opens(before[i], a.approvalId) && !AsksFor(before[i], a.callId))
         && (exists i | 0 <= i < |before| ::
               Requests(before[i], a.callId)
               && before[i].call.toolName == a.toolName && before[i].call.digest == a.digest)
       case ApprovalDecided(a) =>
         && VerdictText(a.verdict) && InTime(a)
         && (exists i | 0 <= i < |before| :: Opens(before[i], a.approvalId) && SameApproval(before[i].approval, a))
         && (forall i | 0 <= i < |before| :: !Settles(before[i], a.approvalId))
       case Malformed(_, _) => false
       case _ => true
  }

  predicate AllFit(runId: string, log: seq<Event>) {
    forall i | 0 <= i < |log| :: Fits(runId, log[..i], log[i])
  }

  // ----- The state, said of the events -----

  predicate SessionIs(runId: string, log: seq<Event>, s: Option<AgentSession>) {
    && s == LatestSession(log) && (s.Some? ==> s.value.runId == runId)
    && (s.Some? ==> exists i | 0 <= i < |log| :: Creates(log[i], s.value.sessionId))
    && (forall i | 0 <= i < |log| && log[i].SessionCreated? :: s.Some? && SameSession(log[i].session, s.value))
  }

  ghost predicate CallsAre(log: seq<Event>, calls: map<string, SessionToolCall>) {
    && (forall id | id in calls :: calls[id].callId == id && exists i | 0 <= i < |log| :: Requests(log[i], id))
    && (forall i | 0 <= i < |log| && log[i].ToolCallRequested? ::
          log[i].call.callId in calls && SameCall(log[i].call, calls[log[i].call.callId]))
    && (forall id :: LatestCall(log, id) == if id in calls then Some(calls[id]) else None)
  }

  predicate ArgumentsAre(log: seq<Event>, arguments: map<string, Arguments>) {
    && (forall id | id in arguments :: exists i | 0 <= i < |log| :: Intends(log[i], id))
    && (forall i | 0 <= i < |log| && log[i].ToolIntent? ::
          log[i].callId in arguments && arguments[log[i].callId] == log[i].arguments)
  }

  predicate RequestsAre(log: seq<Event>, approvals: map<string, ApprovalRequest>) {
    && (forall k | k in approvals ::
          approvals[k].approvalId == k && exists i | 0 <= i < |log| :: Opens(log[i], k))
    && (forall i | 0 <= i < |log| && log[i].ApprovalRequested? ::
          && log[i].approval.approvalId in approvals
          && SameApproval(log[i].approval, approvals[log[i].approval.approvalId]))
  }

  predicate VerdictsAre(log: seq<Event>, approvals: map<string, ApprovalRequest>) {
    && (forall i | 0 <= i < |log| && log[i].ApprovalDecided? :: log[i].approval.approvalId in approvals)
    && (forall k | k in approvals ::
          approvals[k].verdict.Pending? <==> forall i | 0 <= i < |log| :: !Settles(log[i], k))
  }

  predicate ApprovalsAre(log: seq<Event>, approvals: map<string, ApprovalRequest>) {
    RequestsAre(log, approvals) && VerdictsAre(log, approvals)
  }

  predicate FactsAre(log: seq<Event>, facts: seq<Fact>) {
    Readable(facts) <==> forall i | 0 <= i < |log| && log[i].FactMapped? :: Readable(log[i].facts)
  }

  ghost predicate StateIs(runId: string, log: seq<Event>, st: RunState) {
    && SessionIs(runId, log, st.session) && CallsAre(log, st.calls) && ArgumentsAre(log, st.arguments)
    && ApprovalsAre(log, st.approvals) && FactsAre(log, st.facts)
  }

  // ----- One more event -----

  lemma Appended(log: seq<Event>, e: Event)
    ensures var longer := log + [e];
            |longer| == |log| + 1 && longer[|log|] == e && longer[..|log|] == log
            && forall i | 0 <= i < |log| :: longer[i] == log[i]
  {
  }

  lemma SessionGoesOn(runId: string, log: seq<Event>, st: RunState, e: Event)
    requires SessionIs(runId, log, st.session) && (e.SessionCreated? || e.SessionStatusChanged?)
    ensures Step(runId, st, e).Some? <==> Fits(runId, log, e)
    ensures Step(runId, st, e).Some? ==> SessionIs(runId, log + [e], Step(runId, st, e).value.session)
  {
    Appended(log, e);
    hide Blank, ValidSession, StampText, SessionEdge;
    if e.SessionCreated? && Step(runId, st, e).Some? {
      assert Creates((log + [e])[|log|], e.session.sessionId);
    } else if e.SessionStatusChanged? && Step(runId, st, e).Some? {
      var i :| 0 <= i < |log| && Creates(log[i], st.session.value.sessionId);
      assert Creates((log + [e])[i], e.session.sessionId);
    }
    if e.SessionCreated? && st.session.Some? {
      var i :| 0 <= i < |log| && Creates(log[i], st.session.value.sessionId);
      assert log[i].SessionCreated?;
    }
  }

  lemma SessionStays(runId: string, log: seq<Event>, s: Option<AgentSession>, e: Event)
    requires SessionIs(runId, log, s) && !e.SessionCreated? && !e.SessionStatusChanged?
    ensures SessionIs(runId, log + [e], s)
  {
    Appended(log, e);
    if s.Some? {
      var i :| 0 <= i < |log| && Creates(log[i], s.value.sessionId);
      assert Creates((log + [e])[i], s.value.sessionId);
    }
  }

  lemma LatestCallAfter(log: seq<Event>, e: Event, id: string)
    ensures LatestCall(log + [e], id) ==
            if (e.ToolCallRequested? || e.ToolCallStatusChanged?) && e.call.callId == id then Some(e.call)
            else LatestCall(log, id)
  {
    Appended(log, e);
  }

  lemma CallsStay(log: seq<Event>, calls: map<string, SessionToolCall>, e: Event)
    requires CallsAre(log, calls) && !e.ToolCallRequested? && !e.ToolCallStatusChanged?
    ensures CallsAre(log + [e], calls)
  {
    Appended(log, e);
    forall id
      ensures LatestCall(log + [e], id) == if id in calls then Some(calls[id]) else None
    {
      LatestCallAfter(log, e, id);
    }
    forall id | id in calls
      ensures exists i | 0 <= i < |log + [e]| :: Requests((log + [e])[i], id)
    {
      var i :| 0 <= i < |log| && Requests(log[i], id);
      assert Requests((log + [e])[i], id);
    }
    hide LatestCall, SameCall;
  }

  lemma CallMoves(log: seq<Event>, calls: map<string, SessionToolCall>, e: Event)
    requires CallsAre(log, calls) && (e.ToolCallRequested? || e.ToolCallStatusChanged?)
    requires if e.ToolCallRequested? then e.call.callId !in calls
             else e.call.callId in calls && SameCall(e.call, calls[e.call.callId])
    ensures CallsAre(log + [e], calls[e.call.callId := e.call])
  {
    Appended(log, e);
    var calls' := calls[e.call.callId := e.call];
    forall id
      ensures LatestCall(log + [e], id) == if id in calls' then Some(calls'[id]) else None
    {
      LatestCallAfter(log, e, id);
    }
    forall id | id in calls'
      ensures exists i | 0 <= i < |log + [e]| :: Requests((log + [e])[i], id)
    {
      if id in calls {
        var i :| 0 <= i < |log| && Requests(log[i], id);
        assert Requests((log + [e])[i], id);
      } else {
        assert Requests((log + [e])[|log|], id);
      }
    }
    hide LatestCall;
  }

  lemma CallGoesOn(runId: string, log: seq<Event>, st: RunState, e: Event)
    requires StateIs(runId, log, st) && (e.ToolCallRequested? || e.ToolCallStatusChanged?)
    ensures Step(runId, st, e).Some? <==> Fits(runId, log, e)
    ensures Step(runId, st, e).Some? ==>
              Step(runId, st, e).value == st.(calls := st.calls[e.call.callId := e.call])
              && CallsAre(log + [e], st.calls[e.call.callId := e.call])
  {
    hide Blank, ValidCall, StampText, CallEdge, ApprovalsAre, ArgumentsAre, FactsAre, LatestCall;
    if e.ToolCallRequested? {
      RequestFits(runId, log, st, e.call);
    } else {
      assert LatestCall(log, e.call.callId).Some? <==> e.call.callId in st.calls;
    }
    if Step(runId, st, e).Some? {
      CallMoves(log, st.calls, e);
    }
  }

  lemma RequestFits(runId: string, log: seq<Event>, st: RunState, c: SessionToolCall)
    requires SessionIs(runId, log, st.session) && CallsAre(log, st.calls)
    ensures (exists i | 0 <= i < |log| :: Creates(log[i], c.sessionId)) <==>
              st.session.Some? && st.session.value.sessionId == c.sessionId
    ensures (forall i | 0 <= i < |log| :: !Requests(log[i], c.callId)) <==> c.callId !in st.calls
  {
    hide LatestCall, LatestSession;
    if i :| 0 <= i < |log| && Creates(log[i], c.sessionId) {
      assert log[i].SessionCreated?;
    }
    if i :| 0 <= i < |log| && Requests(log[i], c.callId) {
      assert log[i].ToolCallRequested?;
    }
  }

  // ----- Intents -----

  lemma ArgumentsStay(log: seq<Event>, arguments: map<string, Arguments>, e: Event)
    requires ArgumentsAre(log, arguments) && !e.ToolIntent?
    ensures ArgumentsAre(log + [e], arguments)
  {
    Appended(log, e);
    forall id | id in arguments
      ensures exists i | 0 <= i < |log + [e]| :: Intends((log + [e])[i], id)
    {
      var i :| 0 <= i < |log| && Intends(log[i], id);
      assert Intends((log + [e])[i], id);
    }
  }

  lemma IntentGoesOn(runId: string, log: seq<Event>, st: RunState, e: Event)
    requires StateIs(runId, log, st) && e.ToolIntent?
    ensures Step(runId, st, e).Some? <==> Fits(runId, log, e)
    ensures Step(runId, st, e).Some? ==>
              && Step(runId, st, e).value == st.(arguments := st.arguments[e.callId := e.arguments])
              && ArgumentsAre(log + [e], st.arguments[e.callId := e.arguments])
  {
    hide Blank, ApprovalsAre, FactsAre, LatestCall, SessionIs;
    var id := e.callId;
    assert (forall i | 0 <= i < |log| && Intends(log[i], id) :: log[i].arguments == e.arguments)
           <==> (id in st.arguments ==> st.arguments[id] == e.arguments) by {
      if id in st.arguments {
        var i :| 0 <= i < |log| && Intends(log[i], id);
      }
    }
    assert (forall i | 0 <= i < |log| && Requests(log[i], id) :: log[i].call.toolName == e.toolName)
           <==> (id in st.calls ==> st.calls[id].toolName == e.toolName) by {
      if id in st.calls {
        var i :| 0 <= i < |log| && Requests(log[i], id);
      }
    }
    if Step(runId, st, e).Some? {
      IntentAdds(log, st.arguments, e);
    }
  }

  lemma IntentAdds(log: seq<Event>, arguments: map<string, Arguments>, e: Event)
    requires ArgumentsAre(log, arguments) && e.ToolIntent?
    requires e.callId in arguments ==> arguments[e.callId] == e.arguments
    ensures ArgumentsAre(log + [e], arguments[e.callId := e.arguments])
  {
    Appended(log, e);
    var arguments' := arguments[e.callId := e.arguments];
    forall id | id in arguments'
      ensures exists i | 0 <= i < |log + [e]| :: Intends((log + [e])[i], id)
    {
      if id in arguments {
        var i :| 0 <= i < |log| && Intends(log[i], id);
        assert Intends((log + [e])[i], id);
      } else {
        assert Intends((log + [e])[|log|], id);
      }
    }
  }

  // ----- Approvals -----

  lemma ApprovalsStay(log: seq<Event>, approvals: map<string, ApprovalRequest>, e: Event)
    requires ApprovalsAre(log, approvals) && !e.ApprovalRequested? && !e.ApprovalDecided?
    ensures ApprovalsAre(log + [e], approvals)
  {
    Appended(log, e);
    forall k | k in approvals
      ensures exists i | 0 <= i < |log + [e]| :: Opens((log + [e])[i], k)
      ensures approvals[k].verdict.Pending? <==> forall i | 0 <= i < |log + [e]| :: !Settles((log + [e])[i], k)
    {
      var i :| 0 <= i < |log| && Opens(log[i], k);
      assert Opens((log + [e])[i], k);
      SettledSnoc(log, e, k);
    }
    hide SameApproval;
  }

  lemma SettledSnoc(log: seq<Event>, e: Event, k: string)
    ensures (forall i | 0 <= i < |log + [e]| :: !Settles((log + [e])[i], k)) <==>
              (forall i | 0 <= i < |log| :: !Settles(log[i], k)) && !Settles(e, k)
  {
    Appended(log, e);
  }

  /** The event adds a pending request, or the verdict on one. */
  predicate Adds(approvals: map<string, ApprovalRequest>, e: Event, a: ApprovalRequest) {
    if e.ApprovalRequested? then a == e.approval.(verdict := Pending) && a.approvalId !in approvals
    else
      e.ApprovalDecided? && a.approvalId == e.approval.approvalId && a.approvalId in approvals
      && SameApproval(a, approvals[a.approvalId]) && !a.verdict.Pending?
  }

  lemma RequestsAfter(log: seq<Event>, approvals: map<string, ApprovalRequest>, e: Event, a: ApprovalRequest)
    requires RequestsAre(log, approvals) && Adds(approvals, e, a)
    ensures RequestsAre(log + [e], approvals[a.approvalId := a])
  {
    Appended(log, e);
    var approvals' := approvals[a.approvalId := a];
    forall k | k in approvals'
      ensures exists i | 0 <= i < |log + [e]| :: Opens((log + [e])[i], k)
    {
      if k in approvals {
        var i :| 0 <= i < |log| && Opens(log[i], k);
        assert Opens((log + [e])[i], k);
      } else {
        assert Opens((log + [e])[|log|], k);
      }
    }
  }

  lemma VerdictsAfter(log: seq<Event>, approvals: map<string, ApprovalRequest>, e: Event, a: ApprovalRequest)
    requires VerdictsAre(log, approvals) && Adds(approvals, e, a)
    ensures VerdictsAre(log + [e], approvals[a.approvalId := a])
  {
    Appended(log, e);
    var approvals' := approvals[a.approvalId := a];
    forall k | k in approvals'
      ensures approvals'[k].verdict.Pending? <==> forall i | 0 <= i < |log + [e]| :: !Settles((log + [e])[i], k)
    {
      SettledSnoc(log, e, k);
      if k !in approvals {
        assert forall i | 0 <= i < |log| :: !Settles(log[i], k);
      }
    }
  }

  lemma ApprovalAdds(log: seq<Event>, approvals: map<string, ApprovalRequest>, e: Event, a: ApprovalRequest)
    requires ApprovalsAre(log, approvals) && Adds(approvals, e, a)
    ensures ApprovalsAre(log + [e], approvals[a.approvalId := a])
  {
    RequestsAfter(log, approvals, e, a);
    VerdictsAfter(log, approvals, e, a);
    hide RequestsAre, VerdictsAre, Adds;
  }

  lemma ApprovalKnown(log: seq<Event>, approvals: map<string, ApprovalRequest>, a: ApprovalRequest)
    requires ApprovalsAre(log, approvals)
    ensures (forall i | 0 <= i < |log| :: !Opens(log[i], a.approvalId)) <==> a.approvalId !in approvals
    ensures (forall i | 0 <= i < |log| :: !AsksFor(log[i], a.callId)) <==> !Asked(approvals, a.callId)
    ensures (exists i | 0 <= i < |log| :: Opens(log[i], a.approvalId) && SameApproval(log[i].approval, a)) <==>
              a.approvalId in approvals && SameApproval(a, approvals[a.approvalId])
    ensures a.approvalId in approvals ==>
              ((forall i | 0 <= i < |log| :: !Settles(log[i], a.approvalId)) <==>
               approvals[a.approvalId].verdict.Pending?)
  {
    var k := a.approvalId;
    if i :| 0 <= i < |log| && Opens(log[i], k) {
      assert log[i].ApprovalRequested?;
    }
    if k in approvals {
      var i :| 0 <= i < |log| && Opens(log[i], k);
      assert SameApproval(log[i].approval, approvals[k]);
    }
    if i :| 0 <= i < |log| && AsksFor(log[i], a.callId) {
      assert approvals[log[i].approval.approvalId].callId == a.callId;
    }
    if m :| m in approvals && approvals[m].callId == a.callId {
      var i :| 0 <= i < |log| && Opens(log[i], m);
      assert AsksFor(log[i], a.callId);
    }
  }

  lemma CallBound(log: seq<Event>, calls: map<string, SessionToolCall>, a: ApprovalRequest)
    requires CallsAre(log, calls)
    ensures (exists i | 0 <= i < |log| ::
               Requests(log[i], a.callId) && log[i].call.toolName == a.toolName && log[i].call.digest == a.digest)
            <==> a.callId in calls && calls[a.callId].toolName == a.toolName && calls[a.callId].digest == a.digest
  {
    hide LatestCall;
    if a.callId in calls {
      var i :| 0 <= i < |log| && Requests(log[i], a.callId);
      assert SameCall(log[i].call, calls[a.callId]);
    }
    if i :| 0 <= i < |log| && Requests(log[i], a.callId) {
      assert log[i].ToolCallRequested?;
    }
  }

  lemma AppliesInTime(current: ApprovalRequest, d: ApprovalRequest)
    ensures ApplyApproval(current, d).Some? <==>
              SameApproval(d, current) && VerdictText(d.verdict) && current.verdict.Pending? && InTime(d)
    ensures ApplyApproval(current, d).Some? ==> ApplyApproval(current, d).value == d && !d.verdict.Pending?
  {
  }

  lemma ApprovalGoesOn(runId: string, log: seq<Event>, st: RunState, e: Event)
    requires StateIs(runId, log, st) && (e.ApprovalRequested? || e.ApprovalDecided?)
    ensures Step(runId, st, e).Some? <==> Fits(runId, log, e)
    ensures Step(runId, st, e).Some? ==>
              var approvals := Step(runId, st, e).value.approvals;
              Step(runId, st, e).value == st.(approvals := approvals) && ApprovalsAre(log + [e], approvals)
  {
    hide Step, Fits, ArgumentsAre, FactsAre, CallsAre, SessionIs, ApprovalsAre, Adds;
    ApprovalKnown(log, st.approvals, e.approval);
    if e.ApprovalRequested? {
      CallBound(log, st.calls, e.approval);
      RequestStepIff(runId, log, st, e);
      if Step(runId, st, e).Some? {
        ApprovalAdds(log, st.approvals, e, e.approval.(verdict := Pending));
      }
    } else {
      DecisionStepIff(runId, log, st, e);
      if Step(runId, st, e).Some? {
        ApprovalAdds(log, st.approvals, e, e.approval);
      }
    }
  }

  lemma DecisionStepIff(runId: string, log: seq<Event>, st: RunState, e: Event)
    requires e.ApprovalDecided?
    requires var a := e.approval;
             && ((exists i | 0 <= i < |log| :: Opens(log[i], a.approvalId) && SameApproval(log[i].approval, a)) <==>
                   a.approvalId in st.approvals && SameApproval(a, st.approvals[a.approvalId]))
             && (a.approvalId in st.approvals ==>
                   ((forall i | 0 <= i < |log| :: !Settles(log[i], a.approvalId)) <==>
                    st.approvals[a.approvalId].verdict.Pending?))
    ensures Step(runId, st, e).Some? <==> Fits(runId, log, e)
    ensures Step(runId, st, e).Some? ==>
              && Adds(st.approvals, e, e.approval)
              && Step(runId, st, e).value == st.(approvals := st.approvals[e.approval.approvalId := e.approval])
  {
    var a := e.approval;
    if a.approvalId in st.approvals {
      AppliesInTime(st.approvals[a.approvalId], a);
    }
    hide Blank, VerdictText, SameApproval, ApplyApproval, InTime, Opens, Settles;
  }

  lemma RequestStepIff(runId: string, log: seq<Event>, st: RunState, e: Event)
    requires e.ApprovalRequested?
    requires (forall i | 0 <= i < |log| :: !Opens(log[i], e.approval.approvalId)) <==>
               e.approval.approvalId !in st.approvals
    requires (forall i | 0 <= i < |log| :: !AsksFor(log[i], e.approval.callId)) <==>
               !Asked(st.approvals, e.approval.callId)
    requires (exists i | 0 <= i < |log| ::
                Requests(log[i], e.approval.callId)
                && log[i].call.toolName == e.approval.toolName && log[i].call.digest == e.approval.digest)
             <==> e.approval.callId in st.calls && st.calls[e.approval.callId].toolName == e.approval.toolName
                  && st.calls[e.approval.callId].digest == e.approval.digest
    ensures Step(runId, st, e).Some? <==> Fits(runId, log, e)
    ensures Step(runId, st, e).Some? ==>
              var a := e.approval.(verdict := Pending);
              Adds(st.approvals, e, a) && Step(runId, st, e).value == st.(approvals := st.approvals[a.approvalId := a])
  {
    hide Blank, ValidApproval, Asked, Opens, AsksFor, Requests;
  }

  // ----- Every event -----

  lemma FactsGoOn(log: seq<Event>, facts: seq<Fact>, e: Event)
    requires FactsAre(log, facts)
    ensures FactsAre(log + [e], facts + (if e.FactMapped? then e.facts else []))
  {
    Appended(log, e);
    hide ReadableFact;
    var more := if e.FactMapped? then e.facts else [];
    assert Readable(facts + more) <==> Readable(facts) && Readable(more) by {
      assert forall i | 0 <= i < |facts| :: (facts + more)[i] == facts[i];
      assert forall i | 0 <= i < |more| :: (facts + more)[|facts| + i] == more[i];
    }
  }

  lemma Unread(runId: string, log: seq<Event>, st: RunState, e: Event)
    requires e.FactMapped? || e.ToolResulted? || e.WriteCheckpointed? || e.Noted? || e.Malformed?
    ensures Step(runId, st, e).Some? <==> Fits(runId, log, e)
    ensures Step(runId, st, e).Some? ==>
              Step(runId, st, e).value == st.(facts := st.facts + (if e.FactMapped? then e.facts else []))
  {
    hide Blank;
    assert st.facts + [] == st.facts;
  }

  /** One event: replay takes it exactly if it fits, and goes on from the state it should. */
  lemma EventGoesOn(runId: string, log: seq<Event>, st: RunState, e: Event)
    requires StateIs(runId, log, st)
    ensures Step(runId, st, e).Some? <==> Fits(runId, log, e)
    ensures Step(runId, st, e).Some? ==> StateIs(runId, log + [e], Step(runId, st, e).value)
  {
    FactsGoOn(log, st.facts, e);
    assert st.facts + [] == st.facts;
    if Step(runId, st, e).Some? {
      RecordEffect(runId, st, e);
    }
    hide Step, Fits, SessionIs, CallsAre, ArgumentsAre, ApprovalsAre, FactsAre;
    if e.SessionCreated? || e.SessionStatusChanged? {
      SessionGoesOn(runId, log, st, e);
    } else if e.ToolCallRequested? || e.ToolCallStatusChanged? {
      CallGoesOn(runId, log, st, e);
    } else if e.ToolIntent? {
      IntentGoesOn(runId, log, st, e);
    } else if e.ApprovalRequested? || e.ApprovalDecided? {
      ApprovalGoesOn(runId, log, st, e);
    } else {
      Unread(runId, log, st, e);
    }
    if Step(runId, st, e).Some? {
      OthersStay(runId, log, st, e);
    }
  }

  /** What the event does not concern. */
  lemma OthersStay(runId: string, log: seq<Event>, st: RunState, e: Event)
    requires StateIs(runId, log, st) && Step(runId, st, e).Some?
    ensures var st' := Step(runId, st, e).value;
            && (e.SessionCreated? || e.SessionStatusChanged? ||
                (st'.session == st.session && SessionIs(runId, log + [e], st.session)))
            && (e.ToolCallRequested? || e.ToolCallStatusChanged? ||
                (st'.calls == st.calls && CallsAre(log + [e], st.calls)))
            && (e.ToolIntent? || (st'.arguments == st.arguments && ArgumentsAre(log + [e], st.arguments)))
            && (e.ApprovalRequested? || e.ApprovalDecided? ||
                (st'.approvals == st.approvals && ApprovalsAre(log + [e], st.approvals)))
  {
    SessionEffect(runId, st, e);
    CallEffect(runId, st, e);
    RecordEffect(runId, st, e);
    ApprovalEffect(runId, st, e);
    hide Step, SessionIs, CallsAre, ArgumentsAre, ApprovalsAre, FactsAre, AcceptsCall, AcceptsApproval, AcceptsIntent;
    hide ApplySession, ApplyCall, ApplyApproval;
    if !e.SessionCreated? && !e.SessionStatusChanged? {
      SessionStays(runId, log, st.session, e);
    }
    if !e.ToolCallRequested? && !e.ToolCallStatusChanged? {
      CallsStay(log, st.calls, e);
    }
    if !e.ToolIntent? {
      ArgumentsStay(log, st.arguments, e);
    }
    if !e.ApprovalRequested? && !e.ApprovalDecided? {
      ApprovalsStay(log, st.approvals, e);
    }
  }

  /** The loop of replay goes through exactly the logs of which each event fits those before it,
      and ends in the state the events describe. */
  lemma {:induction false} FoldsIff(runId: string, log: seq<Event>)
    ensures Fold(runId, log).Some? <==> AllFit(runId, log)
    ensures Fold(runId, log).Some? ==> StateIs(runId, log, Fold(runId, log).value)
  {
    if log == [] {
      assert StateIs(runId, log, NOTHING);
    } else {
      var n := |log| - 1;
      var shorter, e := log[..n], log[n];
      assert log == shorter + [e];
      FoldSnoc(runId, shorter, e);
      AllFitSnoc(runId, shorter, e);
      hide Fold, Step, AllFit, Fits, StateIs;
      FoldsIff(runId, shorter);
      if Fold(runId, shorter).Some? {
        EventGoesOn(runId, shorter, Fold(runId, shorter).value, e);
      }
    }
  }

  lemma AllFitSnoc(runId: string, log: seq<Event>, e: Event)
    ensures AllFit(runId, log + [e]) <==> AllFit(runId, log) && Fits(runId, log, e)
  {
    hide Fits;
    var longer := log + [e];
    assert longer[|log|] == e && longer[..|log|] == log;
    assert forall i | 0 <= i < |log| :: longer[i] == log[i] && longer[..i] == log[..i];
  }

  /** Replay accepts exactly the logs of which each event fits, that create a session, that
      record for each requested call the arguments of its digest, and whose facts can be read. */
  lemma ReplaysIff(runId: string, log: seq<Event>)
    ensures Replayed(runId, log).Some? <==>
              && AllFit(runId, log)
              && (exists i | 0 <= i < |log| :: log[i].SessionCreated?)
              && (forall i | 0 <= i < |log| && log[i].ToolCallRequested? ::
                    exists j | 0 <= j < |log| ::
                      Intends(log[j], log[i].call.callId) && OfArguments(log[j].arguments) == log[i].call.digest)
              && (forall i | 0 <= i < |log| && log[i].FactMapped? :: Readable(log[i].facts))
  {
    FoldsIff(runId, log);
    if Fold(runId, log).Some? {
      var st := Fold(runId, log).value;
      hide Fold, AllFit, LatestCall, LatestSession, ApprovalsAre;
      assert st.session.Some? <==> exists i | 0 <= i < |log| :: log[i].SessionCreated? by {
        if st.session.Some? {
          var i :| 0 <= i < |log| && Creates(log[i], st.session.value.sessionId);
        }
      }
      BackedIff(log, st);
    }
  }

  lemma BackedIff(log: seq<Event>, st: RunState)
    requires CallsAre(log, st.calls) && ArgumentsAre(log, st.arguments)
    ensures AllBacked(st) <==>
              forall i | 0 <= i < |log| && log[i].ToolCallRequested? ::
                exists j | 0 <= j < |log| ::
                  Intends(log[j], log[i].call.callId) && OfArguments(log[j].arguments) == log[i].call.digest
  {
    hide LatestCall;
    if AllBacked(st) {
      forall i | 0 <= i < |log| && log[i].ToolCallRequested?
        ensures exists j | 0 <= j < |log| ::
                  Intends(log[j], log[i].call.callId) && OfArguments(log[j].arguments) == log[i].call.digest
      {
        var id := log[i].call.callId;
        assert Backed(st, id);
        var j :| 0 <= j < |log| && Intends(log[j], id);
      }
    } else {
      var id :| id in st.calls && !Backed(st, id);
      var i :| 0 <= i < |log| && Requests(log[i], id);
      assert log[i].ToolCallRequested? && SameCall(log[i].call, st.calls[id]);
    }
  }
}
