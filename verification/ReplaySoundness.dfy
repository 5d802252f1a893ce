/** What acceptance by replay says about an arbitrary log, whoever wrote it. */
module ReplaySoundness {
  import opened Texts
  import opened Lifecycle
  import opened Entities
  import opened Replay

  // ----- Status histories -----

  predicate Concerns(e: Event, callId: string) {
    (e.ToolCallRequested? || e.ToolCallStatusChanged?) && e.call.callId == callId
  }

  /** The statuses the log reports for one call, in order. */
  function CallHistory(log: seq<Event>, callId: string): seq<CallStatus> {
    if log == [] then []
    else
      var e := log[|log| - 1];
      CallHistory(log[..|log| - 1], callId) + (if Concerns(e, callId) then [e.call.status] else [])
  }

  function SessionHistory(log: seq<Event>): seq<SessionStatus> {
    if log == [] then []
    else
      var e := log[|log| - 1];
      SessionHistory(log[..|log| - 1])
      + (if e.SessionCreated? || e.SessionStatusChanged? then [e.session.status] else [])
  }

  lemma {:induction false} CallHistoriesArePaths(runId: string, log: seq<Event>, callId: string)
    requires Fold(runId, log).Some?
    ensures CallPath(CallHistory(log, callId))
    ensures CallHistory(log, callId) != [] <==> callId in Fold(runId, log).value.calls
    ensures var h := CallHistory(log, callId);
            h != [] ==> h[|h| - 1] == Fold(runId, log).value.calls[callId].status
  {
    if log != [] {
      CallHistoriesArePaths(runId, log[..|log| - 1], callId);
      CallEffect(runId, Fold(runId, log[..|log| - 1]).value, log[|log| - 1]);
      hide Step, AcceptsCall, StampText, SameCall;
    }
  }

  lemma {:induction false} SessionHistoryIsPath(runId: string, log: seq<Event>)
    requires Fold(runId, log).Some?
    ensures SessionPath(SessionHistory(log))
    ensures SessionHistory(log) != [] <==> Fold(runId, log).value.session.Some?
    ensures var h := SessionHistory(log);
            h != [] ==> h[|h| - 1] == Fold(runId, log).value.session.value.status
  {
    if log != [] {
      SessionHistoryIsPath(runId, log[..|log| - 1]);
      SessionEffect(runId, Fold(runId, log[..|log| - 1]).value, log[|log| - 1]);
      hide Step, ValidSession, StampText, Blank;
    }
  }

  lemma StatusStep(runId: string, st: RunState, e: Event)
    requires Step(runId, st, e).Some? && e.ToolCallStatusChanged?
    ensures e.call.callId in st.calls && CallEdge(st.calls[e.call.callId].status, e.call.status)
    ensures e.call.callId in Step(runId, st, e).value.calls
    ensures Step(runId, st, e).value.calls[e.call.callId] == e.call
  {
  }

  lemma CallMovesOn(runId: string, log: seq<Event>, n: nat, id: string)
    requires n <= |log| && Fold(runId, log).Some?
    ensures Fold(runId, log[..n]).Some?
    ensures id in Fold(runId, log[..n]).value.calls ==> id in Fold(runId, log).value.calls
    ensures id in Fold(runId, log[..n]).value.calls ==>
              Rank(Fold(runId, log[..n]).value.calls[id].status) <= Rank(Fold(runId, log).value.calls[id].status)
  {
    PrefixFolds(runId, log, n);
  }

  /** The status event at i, and the state around it. */
  lemma StatusAt(runId: string, log: seq<Event>, i: nat)
    requires i < |log| && Fold(runId, log).Some? && log[i].ToolCallStatusChanged?
    ensures Fold(runId, log[..i]).Some? && Fold(runId, log[..i + 1]).Some?
    ensures var before := Fold(runId, log[..i]).value;
            var c := log[i].call;
            c.callId in before.calls && CallEdge(before.calls[c.callId].status, c.status)
    ensures var after := Fold(runId, log[..i + 1]).value;
            var c := log[i].call;
            c.callId in after.calls && after.calls[c.callId] == c
  {
    FoldAt(runId, log, i);
    StatusStep(runId, Fold(runId, log[..i]).value, log[i]);
  }

  lemma EdgesClimb(a: CallStatus, b: CallStatus)
    requires CallEdge(a, b)
    ensures Rank(a) < Rank(b)
  {
  }

  /** Two `executing` events of an accepted log never concern the same call. */
  lemma ExecutingOnce(runId: string, log: seq<Event>, i: nat, j: nat)
    requires Fold(runId, log).Some? && i < j < |log|
    requires log[i].ToolCallStatusChanged? && log[i].call.status == Executing
    requires log[j].ToolCallStatusChanged? && log[j].call.status == Executing
    ensures log[i].call.callId != log[j].call.callId
  {
    hide Fold, CallEdge;
    StatusAt(runId, log, i);
    StatusAt(runId, log, j);
    EdgesClimb(Fold(runId, log[..j]).value.calls[log[j].call.callId].status, Executing);
    assert log[..j][..i + 1] == log[..i + 1];
    CallMovesOn(runId, log[..j], i + 1, log[i].call.callId);
  }

  // ----- Approvals -----

  /** Bound to a requested call and its digest, alone for that call, and granted in time. */
  ghost predicate SoundApproval(st: RunState, k: string)
    requires k in st.approvals
  {
    var a := st.approvals[k];
    && a.approvalId == k
    && a.callId in st.calls && st.calls[a.callId].digest == a.digest
    && st.calls[a.callId].toolName == a.toolName
    && (forall m | m in st.approvals && st.approvals[m].callId == a.callId :: m == k)
    && (a.verdict.Approval? && a.expiresAt.Some? ==>
          a.expiresAt.value.At? && a.verdict.at.At? && a.verdict.at.instant < a.expiresAt.value.instant)
  }

  ghost predicate SoundApprovals(st: RunState) {
    forall k | k in st.approvals :: SoundApproval(st, k)
  }

  lemma SoundCalls(st: RunState, st': RunState, k: string)
    requires k in st.approvals && st'.approvals == st.approvals && SoundApproval(st, k)
    requires forall id | id in st.calls :: id in st'.calls && SameCall(st.calls[id], st'.calls[id])
    ensures SoundApproval(st', k)
  {
  }

  lemma SoundRequest(st: RunState, a: ApprovalRequest, k: string)
    requires SoundApprovals(st) && AcceptsApproval(st, a) && a.verdict.Pending?
    requires k in st.approvals || k == a.approvalId
    ensures SoundApproval(st.(approvals := st.approvals[a.approvalId := a]), k)
  {
    hide ValidApproval;
    assert k in st.approvals ==> SoundApproval(st, k);
  }

  lemma SoundDecision(st: RunState, next: ApprovalRequest, k: string, m: string)
    requires SoundApprovals(st) && k in st.approvals && m in st.approvals
    requires ApplyApproval(st.approvals[m], next).Some?
    ensures SoundApproval(st.(approvals := st.approvals[m := ApplyApproval(st.approvals[m], next).value]), k)
  {
    DecidedInTime(st.approvals[m], next);
    hide ApplyApproval;
    assert SoundApproval(st, k) && SoundApproval(st, m);
  }

  lemma SoundStep(runId: string, st: RunState, e: Event)
    requires SoundApprovals(st) && Step(runId, st, e).Some?
    ensures SoundApprovals(Step(runId, st, e).value)
  {
    ApprovalEffect(runId, st, e);
    forall id | id in st.calls {
      CallsMoveOn(runId, st, e, id);
    }
    hide Step, AcceptsApproval, ApplyApproval, Rank, SameCall;
    var st' := Step(runId, st, e).value;
    forall k | k in st'.approvals
      ensures SoundApproval(st', k)
    {
      if e.ApprovalRequested? {
        SoundRequest(st, e.approval.(verdict := Pending), k);
      } else if e.ApprovalDecided? {
        SoundDecision(st, e.approval, k, e.approval.approvalId);
      } else {
        SoundCalls(st, st', k);
      }
    }
  }

  /** What a decision event can do to a pending approval. */
  lemma DecidedInTime(current: ApprovalRequest, next: ApprovalRequest)
    requires ApplyApproval(current, next).Some?
    ensures var a := ApplyApproval(current, next).value;
            && SameApproval(a, current) && current.verdict.Pending? && !a.verdict.Pending?
            && (a.verdict.Approval? && a.expiresAt.Some? ==>
                  a.expiresAt.value.At? && a.verdict.at.At? && a.verdict.at.instant < a.expiresAt.value.instant)
  {
  }

  lemma {:induction false} ApprovalsAreSound(runId: string, log: seq<Event>)
    requires Fold(runId, log).Some?
    ensures SoundApprovals(Fold(runId, log).value)
  {
    if log != [] {
      ApprovalsAreSound(runId, log[..|log| - 1]);
      SoundStep(runId, Fold(runId, log[..|log| - 1]).value, log[|log| - 1]);
    }
  }

  function RequestsFor(log: seq<Event>, callId: string): nat {
    if log == [] then 0
    else
      var e := log[|log| - 1];
      RequestsFor(log[..|log| - 1], callId)
      + (if e.ApprovalRequested? && e.approval.callId == callId then 1 else 0)
  }

  function DecisionsOn(log: seq<Event>, approvalId: string): nat {
    if log == [] then 0
    else
      var e := log[|log| - 1];
      DecisionsOn(log[..|log| - 1], approvalId)
      + (if e.ApprovalDecided? && e.approval.approvalId == approvalId then 1 else 0)
  }

  predicate Decided(approvals: map<string, ApprovalRequest>, k: string) {
    k in approvals && !approvals[k].verdict.Pending?
  }

  lemma RequestCounts(runId: string, st: RunState, e: Event, callId: string)
    requires Step(runId, st, e).Some?
    ensures var st' := Step(runId, st, e).value;
            if e.ApprovalRequested? && e.approval.callId == callId
            then !Asked(st.approvals, callId) && Asked(st'.approvals, callId)
            else Asked(st.approvals, callId) <==> Asked(st'.approvals, callId)
  {
    ApprovalEffect(runId, st, e);
    hide Step, ValidApproval, VerdictText, ApplyApproval;
    var st' := Step(runId, st, e).value;
    if e.ApprovalRequested? || e.ApprovalDecided? {
      var id := e.approval.approvalId;
      if e.ApprovalDecided? {
        DecidedInTime(st.approvals[id], e.approval);
      }
      assert forall m | m in st.approvals && m != id :: st'.approvals[m] == st.approvals[m];
      if Asked(st.approvals, callId) {
        var m :| m in st.approvals && st.approvals[m].callId == callId;
        assert st'.approvals[m].callId == callId;
      }
      if e.ApprovalRequested? && e.approval.callId == callId {
        assert st'.approvals[id].callId == callId;
      }
    }
  }

  lemma DecisionCounts(runId: string, st: RunState, e: Event, k: string)
    requires Step(runId, st, e).Some?
    ensures var st' := Step(runId, st, e).value;
            if e.ApprovalDecided? && e.approval.approvalId == k
            then !Decided(st.approvals, k) && Decided(st'.approvals, k)
            else Decided(st.approvals, k) <==> Decided(st'.approvals, k)
  {
    ApprovalEffect(runId, st, e);
    hide Step, ValidApproval, VerdictText, ApplyApproval, Asked;
    if e.ApprovalDecided? {
      DecidedInTime(st.approvals[e.approval.approvalId], e.approval);
    }
  }

  /** One approval request a call and one decision a request, counted over the whole log. */
  lemma {:induction false} OneRequestOneDecision(runId: string, log: seq<Event>, callId: string, k: string)
    requires Fold(runId, log).Some?
    ensures RequestsFor(log, callId) == if Asked(Fold(runId, log).value.approvals, callId) then 1 else 0
    ensures DecisionsOn(log, k) == if Decided(Fold(runId, log).value.approvals, k) then 1 else 0
  {
    if log != [] {
      var shorter := log[..|log| - 1];
      OneRequestOneDecision(runId, shorter, callId, k);
      RequestCounts(runId, Fold(runId, shorter).value, log[|log| - 1], callId);
      DecisionCounts(runId, Fold(runId, shorter).value, log[|log| - 1], k);
    }
  }

  /** Whatever a call is started or resumed with is what its approval was given for. */
  lemma ApprovalBindsEveryIntent(runId: string, log: seq<Event>, k: string, i: nat)
    requires Replayed(runId, log).Some? && k in Replayed(runId, log).value.approvals
    requires i < |log| && log[i].ToolIntent?
    requires log[i].callId == Replayed(runId, log).value.approvals[k].callId
    ensures OfArguments(log[i].arguments) == Replayed(runId, log).value.approvals[k].digest
  {
    var st := Replayed(runId, log).value;
    ApprovalsAreSound(runId, log);
    FoldAt(runId, log, i);
    assert SoundApproval(st, k);
    assert Backed(st, log[i].callId);
  }
}
