/** The entry points that work on a run between and across session objects: deciding an
    approval, cancelling, resuming, and leaving a session. Each holds the run lock. */
module RuntimeApi {
  import opened Texts
  import opened Lifecycle
  import opened Entities
  import opened Replay
  import Pipeline
  import opened Agreement
  import opened Lifetimes
  import opened LifetimeProofs
  import opened ReplaySoundness
  import opened GovernedSessions

  /** The approval is still what it was when the decision was asked for. */
  predicate StillCurrent(runId: string, log: seq<Event>, approval: ApprovalRequest) {
    && approval.verdict.Pending? && Replayed(runId, log).Some?
    && approval.approvalId in Replayed(runId, log).value.approvals
    && Replayed(runId, log).value.approvals[approval.approvalId] == approval
  }

  /** `_decide_approval` on an approval read earlier; None where it raises, also from the
      rebuild of the tables before anything is appended. */
  method DecideApprovalLocked(evidence: Evidence, approval: ApprovalRequest, c: Command, rebuilds: bool)
    returns (decided: Option<ApprovalRequest>)
    requires c.DecideApproval? && c.approvalId == approval.approvalId
    modifies evidence`events
    ensures var log := old(evidence.events);
            var events := if StillCurrent(approval.runId, log, approval) && rebuilds
                          then Ruling(approval.runId, log, c) else [];
            evidence.events == log + events && (decided.None? <==> events == [])
  {
    var runId := approval.runId;
    assert evidence.events + [] == evidence.events;
    if !approval.verdict.Pending? {
      return None;
    }
    var replayed := ReplayEvents(evidence.events, runId);
    if replayed.None? || c.approvalId !in replayed.value.approvals
       || replayed.value.approvals[c.approvalId] != approval {
      return None;
    }
    var expired := Expired(approval, At(c.checkedAt)) == Some(true);
    if expired {
      decided := Expire(approval, c.approver, At(c.decidedAt));
    } else if c.approves {
      decided := Decide(approval, Approval(c.approver, c.reason, At(c.decidedAt)));
    } else {
      decided := Decide(approval, Denial(c.approver, c.reason, At(c.decidedAt)));
    }
    if decided.None? || !rebuilds {
      return None;
    }
    if expired {
      evidence.Append(Noted(runId, "approval_expired"));
    }
    evidence.Append(ApprovalDecided(decided.value));
  }

  /** `_cancel_locked`; done is false where it raises, also from the rebuild of the tables
      before anything is appended. */
  method CancelLocked(evidence: Evidence, runId: string, c: Command, rebuilds: bool) returns (done: bool)
    requires c.Cancel?
    modifies evidence`events
    ensures Progress(evidence.events, done) ==
            if rebuilds then Cancelling(runId, old(evidence.events), c) else Progress(old(evidence.events), false)
  {
    var replayed := ReplayEvents(evidence.events, runId);
    if replayed.None? {
      return false;
    }
    var st := replayed.value;
    // the two orders stand for the dictionaries' own
    if SessionOver(st.session.value.status) || !rebuilds
       || !Orders(c.approvalOrder, st.approvals.Keys) || !Orders(c.callOrder, st.calls.Keys) {
      return false;
    }
    hide Replayed, DenyPending, RefuseWaiting, Orders;
    var actor := if c.actor == "" then st.session.value.actorId else c.actor;
    ghost var log := evidence.events;
    done := DenyPendingApprovals(evidence, runId, st.approvals, c.(actor := actor));
    if !done {
      return;
    }
    ghost var denied := evidence.events;
    RefuseWaitingCalls(evidence, st.calls, c);
    ghost var refused := evidence.events;
    assert refused == RefuseWaiting(denied, st.calls, c.callOrder, c);
    var cancelled := st.session.value.(status := Cancelled, updatedAt := At(c.clock(|evidence.events|)));
    evidence.Append(SessionStatusChanged(cancelled));
    evidence.Append(Noted(runId, "run_completed"));
    assert evidence.events == refused + [SessionStatusChanged(cancelled), Noted(runId, "run_completed")];
  }

  /** The approvals loop; done is false where deciding raises. */
  method DenyPendingApprovals(evidence: Evidence, runId: string, approvals: map<string, ApprovalRequest>, c: Command)
    returns (done: bool)
    requires c.Cancel? && forall i | 0 <= i < |c.approvalOrder| :: c.approvalOrder[i] in approvals
    modifies evidence`events
    ensures Progress(evidence.events, done) == DenyPending(runId, old(evidence.events), approvals, c.approvalOrder, c)
  {
    ghost var log := evidence.events;
    for i := 0 to |c.approvalOrder|
      invariant DenyPending(runId, evidence.events, approvals, c.approvalOrder[i..], c) ==
                DenyPending(runId, log, approvals, c.approvalOrder, c)
    {
      var approval := approvals[c.approvalOrder[i]];
      assert c.approvalOrder[i..][1..] == c.approvalOrder[i + 1..];
      if approval.verdict.Pending? {
        var late := Expired(approval, At(c.checks(|evidence.events|))) == Some(true);
        var at := At(c.clock(|evidence.events|));
        var decided: Option<ApprovalRequest>;
        if late {
          decided := Expire(approval, c.actor, at);
        } else {
          decided := Decide(approval, Denial(c.actor, "session_cancelled", at));
        }
        if decided.None? {
          return false;
        }
        if late {
          evidence.Append(Noted(runId, "approval_expired"));
        }
        evidence.Append(ApprovalDecided(decided.value));
      }
    }
    return true;
  }

  /** The calls loop. */
  method RefuseWaitingCalls(evidence: Evidence, calls: map<string, SessionToolCall>, c: Command)
    requires c.Cancel? && forall i | 0 <= i < |c.callOrder| :: c.callOrder[i] in calls
    modifies evidence`events
    ensures evidence.events == RefuseWaiting(old(evidence.events), calls, c.callOrder, c)
  {
    ghost var log := evidence.events;
    for i := 0 to |c.callOrder|
      invariant RefuseWaiting(evidence.events, calls, c.callOrder[i..], c) == RefuseWaiting(log, calls, c.callOrder, c)
    {
      var call := calls[c.callOrder[i]];
      assert c.callOrder[i..][1..] == c.callOrder[i + 1..];
      if call.status == AwaitingApproval {
        var refused := call.(status := PolicyDenied, updatedAt := At(c.clock(|evidence.events|)));
        evidence.Append(ToolCallStatusChanged(refused));
      }
    }
  }

  function CallsIn(offers: map<string, Offer>): (calls: map<string, SessionToolCall>)
    ensures calls.Keys == offers.Keys && forall id | id in offers :: calls[id] == offers[id].call
  {
    map id | id in offers :: offers[id].call
  }

  function ApprovalsIn(offers: map<string, Offer>): (approvals: map<string, ApprovalRequest>)
    ensures approvals.Keys == offers.Keys && forall id | id in offers :: approvals[id] == offers[id].approval
  {
    map id | id in offers :: offers[id].approval
  }

  function ArgumentsIn(offers: map<string, Offer>): (arguments: map<string, Arguments>)
    ensures arguments.Keys == offers.Keys && forall id | id in offers :: arguments[id] == offers[id].arguments
  {
    map id | id in offers :: offers[id].arguments
  }

  /** A session as the embedding program holds it: the governed session, and what it may
      still resume. */
  class AgentTrustSession {
    const governed: GovernedSession
    var pendingToolCalls: map<string, SessionToolCall>
    var pendingApprovals: map<string, ApprovalRequest>
    var pendingArguments: map<string, Arguments>

    constructor (governed: GovernedSession, calls: map<string, SessionToolCall>,
                 approvals: map<string, ApprovalRequest>, arguments: map<string, Arguments>)
      ensures this.governed == governed && pendingToolCalls == calls
      ensures pendingApprovals == approvals && pendingArguments == arguments
    {
      this.governed := governed;
      pendingToolCalls, pendingApprovals, pendingArguments := calls, approvals, arguments;
    }

    ghost predicate Holds(offers: map<string, Offer>)
      reads this
    {
      && pendingToolCalls == CallsIn(offers)
      && pendingApprovals == ApprovalsIn(offers)
      && pendingArguments == ArgumentsIn(offers)
    }

    /** `resume_pending_approval`: the call named, or the only one there is; taken is None
        where there is no such one, outcome where it raises before the call is taken up. */
    method ResumePendingApproval(named: Option<string>, now: int, a: Pipeline.Answers, ghost offers: map<string, Offer>)
      returns (taken: Option<string>, outcome: Option<Pipeline.Outcome>)
      requires Holds(offers) && governed.started && governed.activeToolCall.None?
      modifies this, governed, governed.evidence
      ensures taken.Some? <==> named.Some? || |offers.Keys| == 1
      ensures taken.Some? ==> if named.Some? then taken == named else offers.Keys == {taken.value}
      ensures var w := Open(governed.config, old(governed.Snapshot()), offers, true);
              var w' := if taken.Some? then Next(w, ResumePending(taken.value, now, a)) else w;
              w'.Open? && governed.Snapshot() == w'.live && Holds(w'.offers)
    {
      assert pendingToolCalls.Keys == offers.Keys;
      if named.Some? {
        taken := named;
      } else {
        if |pendingToolCalls.Keys| != 1 {
          return None, None;
        }
        taken := Some(TheOnly(pendingToolCalls.Keys));
      }
      outcome := TakeUp(taken.value, now, a, offers);
    }

    method TakeUp(callId: string, now: int, a: Pipeline.Answers, ghost offers: map<string, Offer>)
      returns (outcome: Option<Pipeline.Outcome>)
      requires Holds(offers) && governed.started && governed.activeToolCall.None?
      modifies this, governed, governed.evidence
      ensures var w := Open(governed.config, old(governed.Snapshot()), offers, true);
              var w' := Next(w, ResumePending(callId, now, a));
              w'.Open? && governed.Snapshot() == w'.live && Holds(w'.offers)
    {
      ResumePendingNext(Open(governed.config, governed.Snapshot(), offers, true), callId, now, a);
      hide Pipeline.ResumeCall, Next, Agreed, CallsIn, ApprovalsIn, ArgumentsIn, Grants;
      if callId !in pendingToolCalls || callId !in pendingApprovals || callId !in pendingArguments {
        return None;
      }
      var approval := pendingApprovals[callId];
      if Expired(approval, At(now)) != Some(false) || approval.verdict.Pending? {
        return None;
      }
      var response := if approval.verdict.Approval? then "approve" else "deny";
      var result := governed.ResumeToolCall(pendingToolCalls[callId], pendingArguments[callId], response, a);
      if result.Finished? {
        Drop(callId, offers);
      }
      return Some(result);
    }

    /** The call is no longer on offer. */
    method Drop(callId: string, ghost offers: map<string, Offer>)
      requires Holds(offers)
      modifies this`pendingToolCalls, this`pendingApprovals, this`pendingArguments
      ensures Holds(offers - {callId})
    {
      OffersWithout(offers, callId);
      hide CallsIn, ApprovalsIn, ArgumentsIn;
      pendingToolCalls := pendingToolCalls - {callId};
      pendingApprovals := pendingApprovals - {callId};
      pendingArguments := pendingArguments - {callId};
    }

    /** `__exit__`, before the lock is released. */
    method Exit(raised: bool, timedOut: bool)
      requires governed.started
      modifies governed, governed.evidence
      ensures governed.Snapshot() == Leave(governed.config, old(governed.Snapshot()), raised, timedOut)
    {
      if raised {
        if governed.session.status != WaitingApproval {
          governed.FailSession();
        }
      } else if timedOut {
        governed.TimeOut();
      } else {
        governed.Close();
      }
      if SessionOver(governed.session.status) {
        governed.Note("run_completed");
      }
    }
  }

  lemma OnlyMember(s: set<string>, x: string)
    requires |s| == 1 && x in s
    ensures s == {x}
  {
    assert |s - {x}| == 0;
  }

  function TheOnly(s: set<string>): (x: string)
    requires |s| == 1
    ensures s == {x}
  {
    assert exists x :: x in s by {
      assert s != {};
    }
    assert forall x, y | x in s && y in s :: x == y by {
      forall x, y | x in s && y in s
        ensures x == y
      {
        OnlyMember(s, x);
      }
    }
    var x :| x in s;
    x
  }

  // ----- Resuming -----

  method MaxSequence(calls: map<string, SessionToolCall>) returns (n: int)
    ensures n == LastSequence(calls)
  {
    n := 0;
    var left, first := calls.Keys, true;
    while left != {}
      invariant left <= calls.Keys
      invariant first ==> left == calls.Keys && n == 0
      invariant !first ==> exists k :: k in calls && calls[k].sequence == n
      invariant !first ==> forall k | k in calls && k !in left :: calls[k].sequence <= n
    {
      var id :| id in left;
      if first || calls[id].sequence > n {
        n := calls[id].sequence;
      }
      first, left := false, left - {id};
    }
  }

  /** The approvals of the waiting calls, by call; None where two are for one call. */
  method ApprovalsByCall(st: RunState, waiting: set<string>) returns (byCall: Option<map<string, ApprovalRequest>>)
    requires SoundApprovals(st)
    ensures byCall.Some?
    ensures byCall.value.Keys == set id | id in waiting && Asked(st.approvals, id)
    ensures forall id | id in byCall.value :: byCall.value[id] == ApprovalOf(st.approvals, id)
  {
    var found: map<string, ApprovalRequest> := map[];
    var left := st.approvals.Keys;
    while left != {}
      invariant left <= st.approvals.Keys
      invariant forall id | id in found :: id in waiting && Asked(st.approvals, id)
      invariant forall id | id in found :: found[id] == ApprovalOf(st.approvals, id)
      invariant forall k | k in st.approvals && k !in left && st.approvals[k].callId in waiting ::
                  st.approvals[k].callId in found
      invariant forall k | k in left :: st.approvals[k].callId !in found
    {
      var k :| k in left;
      var candidate := st.approvals[k];
      assert SoundApproval(st, k);
      if candidate.callId in waiting {
        if candidate.callId in found {
          return None;
        }
        OnlyApproval(st, k);
        found := found[candidate.callId := candidate];
      }
      left := left - {k};
    }
    return Some(found);
  }

  /** The checks on the replayed state; None where `_resume_locked` raises. */
  method CheckResumable(st: RunState, callId: string, now: int) returns (byCall: Option<map<string, ApprovalRequest>>)
    requires st.session.Some? && SoundApprovals(st)
    ensures byCall.Some? <==> Resumable(st, callId, now)
    ensures byCall.Some? ==> byCall.value == map id | id in Waiting(st.calls) :: ApprovalOf(st.approvals, id)
  {
    if st.session.value.status != WaitingApproval {
      return None;
    }
    var waiting := Waiting(st.calls);
    byCall := ApprovalsByCall(st, waiting);
    hide SoundApprovals, Asked;
    if byCall.None? || byCall.value.Keys != waiting || callId !in waiting {
      return None;
    }
    assert forall id | id in waiting :: Asked(st.approvals, id);
    var approval := byCall.value[callId];
    if Expired(approval, At(now)) != Some(false) || approval.verdict.Pending? {
      return None;
    }
  }

  /** The waiting calls whose approval is decided and has not expired. */
  ghost function Ready(st: RunState, now: int): set<string> {
    set id | id in Waiting(st.calls) && Asked(st.approvals, id) && Actionable(ApprovalOf(st.approvals, id), now)
  }

  /** The call a resume is for: the one named, or the only one that waits, or the only one
      that is ready. */
  ghost predicate Chosen(st: RunState, named: Option<string>, now: int, id: string) {
    if named.Some? then id == named.value
    else if |Waiting(st.calls)| == 1 then Waiting(st.calls) == {id}
    else Ready(st, now) == {id}
  }

  /** None where the choice is not clear. */
  method ChooseCall(st: RunState, named: Option<string>, now: int, byCall: map<string, ApprovalRequest>)
    returns (id: Option<string>)
    requires byCall == map k | k in Waiting(st.calls) && Asked(st.approvals, k) :: ApprovalOf(st.approvals, k)
    ensures id.Some? ==> Chosen(st, named, now, id.value)
    ensures id.None? ==> forall k :: !Chosen(st, named, now, k)
  {
    hide Asked, Actionable;
    var waiting := Waiting(st.calls);
    if named.Some? {
      return named;
    }
    if |waiting| == 1 {
      return Some(TheOnly(waiting));
    }
    var ready := set k | k in byCall && Actionable(byCall[k], now);
    assert ready == Ready(st, now);
    if |ready| == 1 {
      return Some(TheOnly(ready));
    }
    return None;
  }

  /** The checks on the replayed state, with the choice of the call; None where
      `_resume_locked` raises. */
  method ChooseResumable(st: RunState, named: Option<string>, now: int)
    returns (id: Option<string>, byCall: map<string, ApprovalRequest>)
    requires st.session.Some? && SoundApprovals(st)
    ensures id.Some? ==> Chosen(st, named, now, id.value) && Resumable(st, id.value, now)
    ensures id.Some? ==> byCall == map k | k in Waiting(st.calls) :: ApprovalOf(st.approvals, k)
    ensures id.None? ==> forall k :: Chosen(st, named, now, k) ==> !Resumable(st, k, now)
  {
    var waiting := Waiting(st.calls);
    var found := ApprovalsByCall(st, waiting);
    hide SoundApprovals, Asked;
    if found.None? {
      return None, map[];
    }
    id := ChooseCall(st, named, now, found.value);
    if id.None? {
      return None, map[];
    }
    var checked := CheckResumable(st, id.value, now);
    if checked.None? {
      OnlyOneChosen(st, named, now, id.value);
      return None, map[];
    }
    byCall := checked.value;
  }

  lemma OnlyOneChosen(st: RunState, named: Option<string>, now: int, id: string)
    requires Chosen(st, named, now, id)
    ensures forall k | Chosen(st, named, now, k) :: k == id
  {
    hide Asked, Actionable;
    forall k | Chosen(st, named, now, k)
      ensures k == id
    {
      assert id in {id};
    }
  }

  /** `_resume_locked`; null where it raises, also because the policy snapshot or the tools are
      not as they should be, or from the rebuild of the tables. The rebuilt objects hold what
      the model hands over. */
  method ResumeLocked(evidence: Evidence, runId: string, config: Pipeline.Config, named: Option<string>, now: int,
                      usable: bool)
    returns (s: AgentTrustSession?, callId: string)
    modifies evidence`events
    ensures s == null ==>
              && evidence.events == old(evidence.events)
              && (usable && Replayed(runId, old(evidence.events)).Some? ==>
                    forall k :: Chosen(Replayed(runId, old(evidence.events)).value, named, now, k) ==>
                      Next(Closed(runId, old(evidence.events), evidence.runs), Resume(config, k, now)).Closed?)
    ensures s != null ==>
              && usable && Replayed(runId, old(evidence.events)).Some?
              && Chosen(Replayed(runId, old(evidence.events)).value, named, now, callId)
              && var w' := Next(Closed(runId, old(evidence.events), evidence.runs), Resume(config, callId, now));
                 && w'.Open? && s.governed.started && s.governed.activeToolCall.None?
                 && s.governed.evidence == evidence && s.governed.config == config
                 && s.governed.Snapshot() == w'.live && s.Holds(w'.offers)
  {
    hide Next, Fold, SoundApprovals, Resumable, Chosen;
    s, callId := null, "";
    ghost var w := Closed(runId, evidence.events, evidence.runs);
    forall k {
      ResumeNext(w, config, k, now);
    }
    var replayed := ReplayEvents(evidence.events, runId);
    if replayed.None? {
      return;
    }
    var st := replayed.value;
    ReplayedIsBacked(runId, evidence.events);
    hide Replayed;
    var chosen, byCall := ChooseResumable(st, named, now);
    if chosen.None? || !usable {
      return;
    }
    callId := chosen.value;
    s := Rebuild(evidence, runId, config, callId, now, st, byCall);
  }

  /** The objects of a resumed session. */
  method Rebuild(evidence: Evidence, runId: string, config: Pipeline.Config, callId: string, now: int, st: RunState,
                 byCall: map<string, ApprovalRequest>)
    returns (s: AgentTrustSession)
    requires Replayed(runId, evidence.events) == Some(st) && Resumable(st, callId, now)
    requires st.session.Some? && st.calls.Keys <= st.arguments.Keys
    requires byCall == map k | k in Waiting(st.calls) :: ApprovalOf(st.approvals, k)
    modifies evidence`events
    ensures var w' := Next(Closed(runId, old(evidence.events), evidence.runs), Resume(config, callId, now));
            && w'.Open? && s.governed.started && s.governed.activeToolCall.None?
            && s.governed.evidence == evidence && s.governed.config == config
            && s.governed.Snapshot() == w'.live && s.Holds(w'.offers)
  {
    ResumeNext(Closed(runId, evidence.events, evidence.runs), config, callId, now);
    ResumableIsOffered(st, callId, now);
    hide Next, Replayed, Resumable;
    var waiting := Waiting(st.calls);
    var last := MaxSequence(st.calls);
    evidence.Append(Noted(runId, "run_resumed"));
    var governed := new GovernedSession(config, evidence, st.session.value, if last < 0 then 0 else last,
                                        waiting, true, st.facts);
    s := new AgentTrustSession(governed, map id | id in waiting :: st.calls[id], byCall,
                               map id | id in waiting :: st.arguments[id]);
  }

  lemma ResumableIsOffered(st: RunState, callId: string, now: int)
    requires Resumable(st, callId, now) && st.calls.Keys <= st.arguments.Keys
    ensures forall id | id in Waiting(st.calls) :: Asked(st.approvals, id)
    ensures var offers := OffersOf(st);
            && CallsIn(offers) == (map id | id in Waiting(st.calls) :: st.calls[id])
            && ApprovalsIn(offers) == (map id | id in Waiting(st.calls) :: ApprovalOf(st.approvals, id))
            && ArgumentsIn(offers) == (map id | id in Waiting(st.calls) :: st.arguments[id])
  {
  }

  lemma ReplayedIsBacked(runId: string, log: seq<Event>)
    requires Replayed(runId, log).Some?
    ensures var st := Replayed(runId, log).value;
            st.session.Some? && st.calls.Keys <= st.arguments.Keys && SoundApprovals(st)
  {
    ApprovalsAreSound(runId, log);
    hide Fold, SoundApprovals;
    var st := Replayed(runId, log).value;
    forall id | id in st.calls
      ensures id in st.arguments
    {
      assert Backed(st, id);
    }
  }

  lemma OffersWithout(offers: map<string, Offer>, callId: string)
    ensures var rest := offers - {callId};
            && CallsIn(offers) - {callId} == CallsIn(rest)
            && ApprovalsIn(offers) - {callId} == ApprovalsIn(rest)
            && ArgumentsIn(offers) - {callId} == ArgumentsIn(rest)
  {
  }

  lemma ResumePendingNext(w: World, callId: string, now: int, a: Pipeline.Answers)
    requires w.Open?
    ensures Next(w, ResumePending(callId, now, a)) ==
            if callId !in w.offers || !Actionable(w.offers[callId].approval, now) then w
            else
              var offer := w.offers[callId];
              var response := if offer.approval.verdict.Approval? then "approve" else "deny";
              var t := Pipeline.ResumeCall(w.config, w.live, offer.call, offer.arguments, response, a);
              Open(w.config, t.live, if t.outcome.Finished? then w.offers - {callId} else w.offers, w.locked)
  {
    hide Pipeline.ResumeCall;
  }

  lemma ResumeNext(w: World, config: Pipeline.Config, callId: string, now: int)
    requires w.Closed?
    ensures Next(w, Resume(config, callId, now)) ==
            if Replayed(w.runId, w.log).Some? && Resumable(Replayed(w.runId, w.log).value, callId, now)
            then Open(config, Restored(w.runId, w.log, w.runs), OffersOf(Replayed(w.runId, w.log).value), true)
            else w
  {
  }
}
