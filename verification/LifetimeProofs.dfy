/** What every history of a run keeps. */
module LifetimeProofs {
  import opened Texts
  import opened Lifecycle
  import opened Entities
  import opened Replay
  import opened ReplaySoundness
  import opened Pipeline
  import opened Agreement
  import opened SessionAgreement
  import opened CrashConsistency
  import opened Interleavings
  import opened Lifetimes

  /** What is on disk between processes: a sound log, or one closed by a misnamed denial. */
  predicate Stored(runId: string, log: seq<Event>, runs: seq<nat>) {
    || Sound(runId, log, runs)
    || (&& Misruled(log) && RunOf(log[|log| - 1]) == runId && !Blank(runId)
        && Fold(runId, log).None? && Sound(runId, log[..|log| - 1], runs))
  }

  predicate Granted(l: Live, a: ApprovalRequest) {
    exists k | k in Grants(l) :: Grants(l)[k] == a
  }

  /** The offer is still what the log says about the call. */
  predicate OfferFits(l: Live, id: string, o: Offer) {
    && Rebuilt(l).Some? && o.call.callId == id && o.approval.callId == id
    && id in Rebuilt(l).value.calls && Rebuilt(l).value.calls[id] == o.call
    && id in Rebuilt(l).value.arguments && Rebuilt(l).value.arguments[id] == o.arguments
    && (!o.approval.verdict.Pending? ==> Granted(l, o.approval))
  }

  predicate OffersFit(l: Live, offers: map<string, Offer>) {
    SessionOver(l.session.status) || forall id | id in offers :: OfferFits(l, id, offers[id])
  }

  predicate Intact(w: World) {
    match w
    case Closed(runId, log, runs) => Stored(runId, log, runs)
    case Open(_, live, offers, _) => Agreed(live) && OffersFit(live, offers)
  }

  // ----- What every folded state satisfies -----

  predicate OwnApprovals(runId: string, approvals: map<string, ApprovalRequest>) {
    forall k | k in approvals :: approvals[k].approvalId == k && approvals[k].runId == runId
  }

  predicate OwnSession(runId: string, st: RunState) {
    st.session.Some? ==> ValidSession(st.session.value) && st.session.value.runId == runId
  }

  lemma OwnStep(runId: string, st: RunState, e: Event)
    requires Step(runId, st, e).Some?
    requires OwnSession(runId, st) && OfRun(runId, st.calls) && OwnApprovals(runId, st.approvals)
    ensures var st' := Step(runId, st, e).value;
            OwnSession(runId, st') && OfRun(runId, st'.calls) && OwnApprovals(runId, st'.approvals)
  {
    hide Blank;
  }

  lemma {:induction false} OwnState(runId: string, log: seq<Event>)
    requires Fold(runId, log).Some?
    ensures var st := Fold(runId, log).value;
            OwnSession(runId, st) && OfRun(runId, st.calls) && OwnApprovals(runId, st.approvals)
  {
    hide Step;
    if log != [] {
      OwnState(runId, log[..|log| - 1]);
      OwnStep(runId, Fold(runId, log[..|log| - 1]).value, log[|log| - 1]);
    }
  }

  lemma SoundSnoc(runId: string, log: seq<Event>, runs: seq<nat>, e: Event)
    requires Sound(runId, log, runs) && !EndsInRequest(log)
    requires Step(runId, Fold(runId, log).value, e).Some? && !e.ToolCallRequested? && !e.ToolIntent?
    requires Ided(Step(runId, Fold(runId, log).value, e).value.calls)
    ensures Sound(runId, log + [e], runs) && !EndsInRequest(log + [e])
    ensures Fold(runId, log + [e]) == Step(runId, Fold(runId, log).value, e)
  {
    hide Step, Ided;
    FoldSnoc(runId, log, e);
    PairedSnoc(log, e);
    KnownSnoc(runId, log, e);
    LicencesSurvive(runId, log, runs, e);
  }

  lemma NoteSound(runId: string, log: seq<Event>, runs: seq<nat>, kind: string)
    requires Sound(runId, log, runs) && !EndsInRequest(log) && !Blank(runId)
    ensures var log' := log + [Noted(runId, kind)];
            Sound(runId, log', runs) && !EndsInRequest(log') && Fold(runId, log') == Fold(runId, log)
  {
    SoundSnoc(runId, log, runs, Noted(runId, kind));
  }

  /** A verdict taken by the approval entity is one replay takes too, unless it is misnamed. */
  lemma VerdictSteps(runId: string, st: RunState, a: ApprovalRequest, verdict: Verdict, late: bool)
    requires !Blank(runId) && a.runId == runId && !verdict.Pending?
    requires a.approvalId in st.approvals && st.approvals[a.approvalId] == a
    requires late ==> verdict.Denial? && verdict.reason == EXPIRY_REASON
    requires (if late then Expire(a, verdict.approver, verdict.at) else Decide(a, verdict)) ==
             Some(a.(verdict := verdict))
    ensures Step(runId, st, ApprovalDecided(a.(verdict := verdict))) ==
            if Misnamed(ApprovalDecided(a.(verdict := verdict))) then None
            else Some(st.(approvals := st.approvals[a.approvalId := a.(verdict := verdict)]))
  {
  }

  /** States that differ in their approvals only. */
  predicate SameButApprovals(a: RunState, b: RunState) {
    a == b.(approvals := a.approvals)
  }

  lemma DecisionSound(runId: string, log: seq<Event>, runs: seq<nat>, a: ApprovalRequest, verdict: Verdict, late: bool)
    requires Sound(runId, log, runs) && !EndsInRequest(log) && !Blank(runId) && !verdict.Pending?
    requires a.approvalId in Fold(runId, log).value.approvals && Fold(runId, log).value.approvals[a.approvalId] == a
    requires late ==> verdict.Denial? && verdict.reason == EXPIRY_REASON
    requires (if late then Expire(a, verdict.approver, verdict.at) else Decide(a, verdict)) ==
             Some(a.(verdict := verdict))
    ensures var e := ApprovalDecided(a.(verdict := verdict));
            if Misnamed(e) then Fold(runId, log + [e]).None?
            else
              && Sound(runId, log + [e], runs) && !EndsInRequest(log + [e])
              && Fold(runId, log + [e]) == Some(Fold(runId, log).value.(
                   approvals := Fold(runId, log).value.approvals[a.approvalId := a.(verdict := verdict)]))
  {
    var e := ApprovalDecided(a.(verdict := verdict));
    OwnState(runId, log);
    VerdictSteps(runId, Fold(runId, log).value, a, verdict, late);
    hide Step, Ided, Misnamed;
    if Misnamed(e) {
      FoldSnoc(runId, log, e);
    } else {
      SoundSnoc(runId, log, runs, e);
    }
  }

  /** A sound log that replay accepts is one work can go on from. */
  lemma ReplayedIsWhole(runId: string, log: seq<Event>, runs: seq<nat>)
    requires Sound(runId, log, runs) && Replayed(runId, log).Some?
    ensures Fold(runId, log) == Replayed(runId, log) && !Blank(runId) && !EndsInRequest(log)
    ensures var st := Replayed(runId, log).value;
            && st.session.Some? && ValidSession(st.session.value) && st.session.value.runId == runId
            && OfRun(runId, st.calls) && OwnApprovals(runId, st.approvals)
            && st.arguments.Keys == st.calls.Keys && AllBacked(st)
  {
    OwnState(runId, log);
    ReplayableIff(runId, log, runs);
    OnlyTheLastIsUnbacked(runId, log);
    hide Step, Fold, Paired, Known, AllLicensed, Ided;
  }

  lemma RulingSound(runId: string, log: seq<Event>, runs: seq<nat>, c: Command)
    requires Sound(runId, log, runs) && c.DecideApproval?
    ensures var events := Ruling(runId, log, c);
            if Misruled(events)
            then events == [events[0]] && Misruled(log + events) && Fold(runId, log + events).None?
            else
              && Sound(runId, log + events, runs) && (EndsInRequest(log) <==> EndsInRequest(log + events))
              && SameButApprovals(Fold(runId, log + events).value, Fold(runId, log).value)
  {
    var r := Replayed(runId, log);
    assert log + [] == log;
    if r.None? || c.approvalId !in r.value.approvals {
      return;
    }
    ReplayedIsWhole(runId, log, runs);
    hide Sound, Fold, Step, Replayed, AllBacked, OfRun;
    var a := r.value.approvals[c.approvalId];
    var late := Expired(a, At(c.checkedAt)) == Some(true);
    var verdict := if late then Denial(c.approver, EXPIRY_REASON, At(c.decidedAt))
                   else if c.approves then Approval(c.approver, c.reason, At(c.decidedAt))
                   else Denial(c.approver, c.reason, At(c.decidedAt));
    var decided := if late then Expire(a, c.approver, At(c.decidedAt)) else Decide(a, verdict);
    if decided.None? {
      return;
    }
    var e := ApprovalDecided(a.(verdict := verdict));
    if late {
      NoteSound(runId, log, runs, "approval_expired");
      var noted := log + [Noted(runId, "approval_expired")];
      DecisionSound(runId, noted, runs, a, verdict, true);
      assert noted + [e] == log + [Noted(runId, "approval_expired"), e];
    } else {
      DecisionSound(runId, log, runs, a, verdict, false);
    }
  }

  // ----- Cancelling -----

  /** One round of the approvals loop. */
  lemma DenyOneSound(runId: string, log: seq<Event>, runs: seq<nat>, a: ApprovalRequest, actor: string, late: bool,
                     at: Stamp)
    requires Sound(runId, log, runs) && !EndsInRequest(log) && !Blank(runId)
    requires a.approvalId in Fold(runId, log).value.approvals && Fold(runId, log).value.approvals[a.approvalId] == a
    requires (if late then Expire(a, actor, at) else Decide(a, Denial(actor, "session_cancelled", at))).Some?
    ensures var decided := if late then Expire(a, actor, at) else Decide(a, Denial(actor, "session_cancelled", at));
            var noted := if late then log + [Noted(runId, "approval_expired")] else log;
            var next := noted + [ApprovalDecided(decided.value)];
            && Sound(runId, next, runs) && !EndsInRequest(next) && log <= next
            && !decided.value.verdict.Pending? && decided.value.approvalId == a.approvalId
            && Fold(runId, next) == Some(Fold(runId, log).value.(
                 approvals := Fold(runId, log).value.approvals[a.approvalId := decided.value]))
  {
    hide Sound, Fold, Step;
    var verdict := Denial(actor, if late then EXPIRY_REASON else "session_cancelled", at);
    if late {
      NoteSound(runId, log, runs, "approval_expired");
      DecisionSound(runId, log + [Noted(runId, "approval_expired")], runs, a, verdict, true);
    } else {
      DecisionSound(runId, log, runs, a, verdict, false);
    }
  }

  lemma {:induction false} DenyPendingSound(runId: string, log: seq<Event>, runs: seq<nat>,
                                            approvals: map<string, ApprovalRequest>, order: seq<string>, c: Command)
    requires Sound(runId, log, runs) && !EndsInRequest(log) && !Blank(runId)
    requires c.Cancel? && Distinct(order) && OwnApprovals(runId, approvals)
    requires forall i | 0 <= i < |order| ::
               && order[i] in approvals && order[i] in Fold(runId, log).value.approvals
               && Fold(runId, log).value.approvals[order[i]] == approvals[order[i]]
    ensures var p := DenyPending(runId, log, approvals, order, c);
            && Sound(runId, p.log, runs) && !EndsInRequest(p.log) && log <= p.log
            && SameButApprovals(Fold(runId, p.log).value, Fold(runId, log).value)
            && Fold(runId, p.log).value.approvals.Keys == Fold(runId, log).value.approvals.Keys
            && (p.done ==> forall k | k in Fold(runId, p.log).value.approvals ::
                  if k in order then !Fold(runId, p.log).value.approvals[k].verdict.Pending?
                  else Fold(runId, p.log).value.approvals[k] == Fold(runId, log).value.approvals[k])
    decreases |order|
  {
    hide Sound, Fold, Step, EndsInRequest;
    if order == [] {
      return;
    }
    var a, rest := approvals[order[0]], order[1..];
    assert order == [order[0]] + rest;
    assert forall k :: k in order <==> k == order[0] || k in rest;
    if !a.verdict.Pending? {
      DenyPendingSound(runId, log, runs, approvals, rest, c);
      return;
    }
    var late := Expired(a, At(c.checks(|log|))) == Some(true);
    var at := At(c.clock(|log|));
    var decided := if late then Expire(a, c.actor, at) else Decide(a, Denial(c.actor, "session_cancelled", at));
    if decided.None? {
      return;
    }
    DenyOneSound(runId, log, runs, a, c.actor, late, at);
    var noted := if late then log + [Noted(runId, "approval_expired")] else log;
    DenyPendingSound(runId, noted + [ApprovalDecided(decided.value)], runs, approvals, rest, c);
  }

  lemma RefuseOneSound(runId: string, log: seq<Event>, runs: seq<nat>, call: SessionToolCall, at: int)
    requires Sound(runId, log, runs) && !EndsInRequest(log) && !Blank(runId)
    requires call.callId in Fold(runId, log).value.calls && Fold(runId, log).value.calls[call.callId] == call
    requires call.runId == runId && call.status == AwaitingApproval
    ensures var refused := call.(status := PolicyDenied, updatedAt := At(at));
            var next := log + [ToolCallStatusChanged(refused)];
            && Sound(runId, next, runs) && !EndsInRequest(next) && log <= next
            && Fold(runId, next) == Some(Fold(runId, log).value.(
                 calls := Fold(runId, log).value.calls[call.callId := refused]))
  {
    var st := Fold(runId, log).value;
    var refused := call.(status := PolicyDenied, updatedAt := At(at));
    StatusSteps(runId, st, refused);
    assert Ided(st.calls[call.callId := refused]);
    hide Step, Ided;
    SoundSnoc(runId, log, runs, ToolCallStatusChanged(refused));
  }

  predicate SameButCalls(a: RunState, b: RunState) {
    a == b.(calls := a.calls)
  }

  /** A call that waited is denied by policy; any other is left alone. */
  predicate CallCancelled(before: SessionToolCall, after: SessionToolCall) {
    if before.status == AwaitingApproval then SameCall(after, before) && after.status == PolicyDenied
    else after == before
  }

  lemma {:induction false} RefuseWaitingSound(runId: string, log: seq<Event>, runs: seq<nat>,
                                              calls: map<string, SessionToolCall>, order: seq<string>, c: Command)
    requires Sound(runId, log, runs) && !EndsInRequest(log) && !Blank(runId)
    requires c.Cancel? && Distinct(order) && OfRun(runId, calls) && Ided(calls)
    requires forall i | 0 <= i < |order| ::
               && order[i] in calls && order[i] in Fold(runId, log).value.calls
               && Fold(runId, log).value.calls[order[i]] == calls[order[i]]
    ensures var next := RefuseWaiting(log, calls, order, c);
            && Sound(runId, next, runs) && !EndsInRequest(next) && log <= next
            && SameButCalls(Fold(runId, next).value, Fold(runId, log).value)
            && Fold(runId, next).value.calls.Keys == Fold(runId, log).value.calls.Keys
            && forall k | k in Fold(runId, next).value.calls ::
                 if k in order then CallCancelled(Fold(runId, log).value.calls[k], Fold(runId, next).value.calls[k])
                 else Fold(runId, next).value.calls[k] == Fold(runId, log).value.calls[k]
    decreases |order|
  {
    hide Sound, Fold, Step, EndsInRequest, Blank, CallId;
    if order == [] {
      return;
    }
    var call, rest := calls[order[0]], order[1..];
    assert order == [order[0]] + rest;
    assert forall k :: k in order <==> k == order[0] || k in rest;
    var next := log;
    if call.status == AwaitingApproval {
      var at := c.clock(|log|);
      RefuseOneSound(runId, log, runs, call, at);
      next := log + [ToolCallStatusChanged(call.(status := PolicyDenied, updatedAt := At(at)))];
    }
    RefuseWaitingSound(runId, next, runs, calls, rest, c);
  }

  lemma NoneWaits(before: map<string, SessionToolCall>, after: map<string, SessionToolCall>, order: seq<string>)
    requires Orders(order, before.Keys) && after.Keys == before.Keys
    requires forall k | k in after && k in order :: CallCancelled(before[k], after[k])
    ensures Waiting(after) == {}
  {
  }

  lemma CancelledSessionSteps(runId: string, st: RunState, s: AgentSession)
    requires !Blank(runId) && st.session.Some? && ValidSession(st.session.value) && st.session.value.runId == runId
    requires SameSession(s, st.session.value) && s.status == Cancelled && StampText(s.updatedAt)
    requires !SessionOver(st.session.value.status)
    ensures Step(runId, st, SessionStatusChanged(s)) == Some(st.(session := Some(s)))
  {
  }

  /** Cancelling leaves a sound log; once it has gone through, the session is cancelled, no
      approval is pending and no call waits. */
  lemma CancelSound(runId: string, log: seq<Event>, runs: seq<nat>, c: Command)
    requires Sound(runId, log, runs) && c.Cancel?
    ensures var p := Cancelling(runId, log, c);
            && Sound(runId, p.log, runs) && log <= p.log
            && (p.done ==>
                  var st := Fold(runId, p.log).value;
                  && st.session.Some? && st.session.value.status == Cancelled
                  && Waiting(st.calls) == {}
                  && forall k | k in st.approvals :: !st.approvals[k].verdict.Pending?)
            && (!p.done ==> SameButApprovals(Fold(runId, p.log).value, Fold(runId, log).value))
  {
    var r := Replayed(runId, log);
    if r.None? || SessionOver(r.value.session.value.status)
       || !Orders(c.approvalOrder, r.value.approvals.Keys) || !Orders(c.callOrder, r.value.calls.Keys) {
      return;
    }
    var st := r.value;
    assert Ided(st.calls);
    ReplayedIsWhole(runId, log, runs);
    hide Sound, Fold, Step, Replayed, AllBacked, EndsInRequest, Blank, Ided, ValidSession;
    var actor := if c.actor == "" then st.session.value.actorId else c.actor;
    DenyPendingSound(runId, log, runs, st.approvals, c.approvalOrder, c.(actor := actor));
    var denied := DenyPending(runId, log, st.approvals, c.approvalOrder, c.(actor := actor));
    if !denied.done {
      return;
    }
    hide DenyPending, Orders, Distinct, OfRun, OwnApprovals, CallCancelled;
    RefuseWaitingSound(runId, denied.log, runs, st.calls, c.callOrder, c);
    var refused := RefuseWaiting(denied.log, st.calls, c.callOrder, c);
    hide RefuseWaiting;
    NoneWaits(st.calls, Fold(runId, refused).value.calls, c.callOrder);
    CancelEnds(runId, refused, runs, st.session.value.(status := Cancelled, updatedAt := At(c.clock(|refused|))));
  }

  /** The two events that end a cancelled run. */
  lemma CancelEnds(runId: string, log: seq<Event>, runs: seq<nat>, s: AgentSession)
    requires Sound(runId, log, runs) && !EndsInRequest(log) && !Blank(runId)
    requires var st := Fold(runId, log).value;
             && st.session.Some? && ValidSession(st.session.value) && st.session.value.runId == runId
             && SameSession(s, st.session.value) && !SessionOver(st.session.value.status)
    requires s.status == Cancelled && StampText(s.updatedAt)
    ensures var longer := log + [SessionStatusChanged(s), Noted(runId, "run_completed")];
            && Sound(runId, longer, runs)
            && Fold(runId, longer) == Some(Fold(runId, log).value.(session := Some(s)))
  {
    CancelledSessionSteps(runId, Fold(runId, log).value, s);
    IdedKept(runId, log, runs, s);
    hide Sound, Fold, Step, ValidSession, Blank;
    SoundSnoc(runId, log, runs, SessionStatusChanged(s));
    var ended := log + [SessionStatusChanged(s)];
    NoteSound(runId, ended, runs, "run_completed");
    assert ended + [Noted(runId, "run_completed")] == log + [SessionStatusChanged(s), Noted(runId, "run_completed")];
  }

  lemma IdedKept(runId: string, log: seq<Event>, runs: seq<nat>, s: AgentSession)
    requires Sound(runId, log, runs)
    ensures Fold(runId, log).Some? && Ided(Fold(runId, log).value.(session := Some(s)).calls)
  {
  }

  // ----- Resuming -----

  lemma RestoredAgrees(runId: string, log: seq<Event>, runs: seq<nat>, callId: string, now: int)
    requires Sound(runId, log, runs) && Replayed(runId, log).Some?
    requires Resumable(Replayed(runId, log).value, callId, now)
    ensures var l := Restored(runId, log, runs);
            && Agreed(l) && Rebuilt(l) == Replayed(runId, log) && log <= l.log && l.session.runId == runId
            && (forall id | id in Waiting(Rebuilt(l).value.calls) :: Asked(Grants(l), id))
            && OffersFit(l, OffersOf(Replayed(runId, log).value))
  {
    hide Fold, Step, AllBacked, AllLicensed, Paired, Known, Readable, Blank;
    var st := Replayed(runId, log).value;
    ReplayedIsWhole(runId, log, runs);
    NoteSound(runId, log, runs, "run_resumed");
    var l := Restored(runId, log, runs);
    RestoredTracks(l, st);
    hide Tracks, Ided;
    assert callId in l.pending;
    assert Recorded(l);
    OffersOfFit(l, st);
  }

  lemma OffersOfFit(l: Live, st: RunState)
    requires Rebuilt(l) == Some(st) && st.calls.Keys <= st.arguments.Keys
    requires forall id | id in Waiting(st.calls) :: Asked(st.approvals, id)
    requires forall id | id in st.calls :: st.calls[id].callId == id
    ensures forall id | id in OffersOf(st) :: OfferFits(l, id, OffersOf(st)[id])
  {
    hide Fold;
    forall id | id in OffersOf(st)
      ensures OfferFits(l, id, OffersOf(st)[id])
    {
      var a := ApprovalOf(st.approvals, id);
      var k :| k in st.approvals && st.approvals[k] == a;
      assert k in Grants(l) && Grants(l)[k] == a;
    }
  }

  lemma RestoredTracks(l: Live, st: RunState)
    requires st.session == Some(l.session) && ValidSession(l.session) && l.session.status != Created
    requires OfRun(l.session.runId, st.calls) && Ided(st.calls)
    requires st.arguments.Keys == st.calls.Keys && AllBacked(st)
    requires l.sequence == (if LastSequence(st.calls) < 0 then 0 else LastSequence(st.calls))
    requires l.facts == st.facts && l.pending == Waiting(st.calls)
    ensures Tracks(l, st)
  {
    hide CallId;
  }

  lemma OnlyApproval(st: RunState, k: string)
    requires SoundApprovals(st) && k in st.approvals
    ensures Asked(st.approvals, st.approvals[k].callId)
    ensures ApprovalOf(st.approvals, st.approvals[k].callId) == st.approvals[k]
  {
    var id := st.approvals[k].callId;
    assert Asked(st.approvals, id);
    var m :| m in st.approvals && st.approvals[m] == ApprovalOf(st.approvals, id);
    assert SoundApproval(st, k) && SoundApproval(st, m);
  }

  /** An approval on offer for an approving answer clears its call: it is the only one. */
  lemma OfferClears(l: Live, id: string, o: Offer)
    requires OfferFits(l, id, o) && o.approval.verdict.Approval?
    ensures Cleared(Grants(l), id)
  {
    ApprovalsAreSound(l.session.runId, l.log);
    hide Fold;
    var k :| k in Grants(l) && Grants(l)[k] == o.approval;
    assert SoundApproval(Rebuilt(l).value, k);
  }

  lemma OfferKnows(l: Live, id: string, o: Offer)
    requires OfferFits(l, id, o)
    ensures Rebuilt(l).Some? && o.call.callId == id && id in Rebuilt(l).value.calls
    ensures Rebuilt(l).value.calls[id] == o.call
    ensures id in Rebuilt(l).value.arguments && Rebuilt(l).value.arguments[id] == o.arguments
  {
  }

  lemma OffersSurvive(l: Live, m: Live, offers: map<string, Offer>, except: Option<string>)
    requires CallsKept(l, m, except) && l.log <= m.log && m.session.runId == l.session.runId
    requires forall id | id in offers :: OfferFits(l, id, offers[id])
    ensures forall id | id in offers && Some(id) != except :: OfferFits(m, id, offers[id])
  {
    PrefixFolds(m.session.runId, m.log, |l.log|);
    assert m.log[..|l.log|] == l.log;
    hide Fold;
    forall id | id in offers && Some(id) != except
      ensures OfferFits(m, id, offers[id])
    {
      var o := offers[id];
      if !o.approval.verdict.Pending? {
        var k :| k in Grants(l) && Grants(l)[k] == o.approval;
        assert Grants(m)[k] == o.approval;
      }
    }
  }

  // ----- Every command keeps the run intact -----

  /** What a command promises: the run stays intact, is the same run, and its log only grows. */
  predicate Evolves(w: World, w': World) {
    Intact(w') && RunIdOf(w') == RunIdOf(w) && LogOf(w) <= LogOf(w')
  }

  lemma BeginIntact(w: World, config: Config, session: AgentSession)
    requires Intact(w)
    ensures Evolves(w, Next(w, Begin(config, session)))
  {
    hide Start, Agreed, ValidSession, Quiet, Stored;
    if w.Closed? && w.log == [] && w.runs == [] && session.runId == w.runId
       && ValidSession(session) && session.status == Created {
      BegunAgrees(config, session);
    }
  }

  /** A session is created over a log that holds only two notes. */
  lemma BegunAgrees(config: Config, session: AgentSession)
    requires ValidSession(session) && session.status == Created
    ensures var l := Start(config, Fresh(session, [Noted(session.runId, "policy_snapshot"),
                                                   Noted(session.runId, "run_started")]));
            Agreed(l) && Quiet(l) && l.session.status == Running && SameSession(l.session, session)
  {
    var runId := session.runId;
    var first, second := Noted(runId, "policy_snapshot"), Noted(runId, "run_started");
    NothingYet(runId);
    PassiveStep(runId, NOTHING, first);
    PassiveStep(runId, NOTHING, second);
    hide Fold, Step, Agreed, Quiet, Start, Blank;
    FoldSnoc(runId, [], first);
    FoldSnoc(runId, [first], second);
    assert [] + [first] == [first] && [first] + [second] == [first, second];
    StartKeeps(config, session, [first, second]);
  }

  lemma CallIntact(w: World, toolName: string, arguments: Arguments, a: Answers)
    requires Intact(w)
    ensures Evolves(w, Next(w, Call(toolName, arguments, a)))
  {
    hide Agreed, OffersFit, Execute, Grants;
    if w.Open? && a.approvalId !in Grants(w.live) {
      CallFits(w.config, w.live, w.offers, toolName, arguments, a);
    }
  }

  lemma CallFits(c: Config, l: Live, offers: map<string, Offer>, toolName: string, arguments: Arguments, a: Answers)
    requires Agreed(l) && OffersFit(l, offers) && a.approvalId !in Grants(l)
    ensures var m := Execute(c, l, toolName, arguments, a).live;
            Agreed(m) && OffersFit(m, offers) && m.session.runId == l.session.runId && l.log <= m.log
  {
    OverTakesNoCalls(c, l, toolName, arguments, a);
    hide Agreed, CallsKept, OfferFits, Execute, Fold, Grants;
    ExecuteKeeps(c, l, toolName, arguments, a);
    if !SessionOver(l.session.status) {
      OffersSurvive(l, Execute(c, l, toolName, arguments, a).live, offers, None);
    }
  }

  lemma OffersOutlive(l: Live, m: Live, offers: map<string, Offer>)
    requires Rebuilt(m) == Rebuilt(l) && OffersFit(l, offers) && !SessionOver(l.session.status)
    ensures OffersFit(m, offers)
  {
    hide Fold;
    forall id | id in offers
      ensures OfferFits(m, id, offers[id])
    {
      var o := offers[id];
      if !o.approval.verdict.Pending? {
        var k :| k in Grants(l) && Grants(l)[k] == o.approval;
        assert k in Grants(m) && Grants(m)[k] == o.approval;
      }
    }
  }

  lemma OverTakesNoCalls(c: Config, l: Live, toolName: string, arguments: Arguments, a: Answers)
    ensures SessionOver(l.session.status) ==> Execute(c, l, toolName, arguments, a).live == l
  {
  }

  lemma AnswerFits(c: Config, l: Live, offers: map<string, Offer>, verified: bool)
    requires Agreed(l) && OffersFit(l, offers) && AnswerFinally(c, l, verified).Some?
    ensures var m := AnswerFinally(c, l, verified).value;
            Agreed(m) && OffersFit(m, offers) && m.session.runId == l.session.runId && l.log <= m.log
  {
    AnswerKeeps(c, l, verified);
    assert l.session.status == Running;
    hide Agreed, Fold, AnswerFinally, Rebuilt, OfferFits, Grants;
    if AnswerFinally(c, l, verified).value.session.status != Completed {
      OffersOutlive(l, AnswerFinally(c, l, verified).value, offers);
    }
  }

  lemma AnswerIntact(w: World, verified: bool)
    requires Intact(w)
    ensures Evolves(w, Next(w, SubmitAnswer(verified)))
  {
    hide Agreed, OffersFit, AnswerFinally;
    if w.Open? && AnswerFinally(w.config, w.live, verified).Some? {
      AnswerFits(w.config, w.live, w.offers, verified);
    }
  }

  lemma ResumeTurnFits(c: Config, l: Live, offers: map<string, Offer>, callId: string, a: Answers)
    requires Agreed(l) && callId in offers && !offers[callId].approval.verdict.Pending?
    requires forall id | id in offers :: OfferFits(l, id, offers[id])
    ensures var offer := offers[callId];
            var t := ResumeCall(c, l, offer.call, offer.arguments,
                                if offer.approval.verdict.Approval? then "approve" else "deny", a);
            && Agreed(t.live) && t.live.session.runId == l.session.runId && l.log <= t.live.log
            && OffersFit(t.live, if t.outcome.Finished? then offers - {callId} else offers)
  {
    hide Agreed, CallsKept, Fold, ResumeCall, OfferFits, Grants, Cleared, Rebuilt;
    var offer := offers[callId];
    var response := if offer.approval.verdict.Approval? then "approve" else "deny";
    var t := ResumeCall(c, l, offer.call, offer.arguments, response, a);
    if response == "approve" {
      OfferClears(l, callId, offer);
    }
    OfferKnows(l, callId, offer);
    ResumeKeeps(c, l, offer.call, offer.arguments, response, a);
    OffersSurvive(l, t.live, offers, Some(callId));
  }

  lemma ResumePendingIntact(w: World, callId: string, now: int, a: Answers)
    requires Intact(w)
    ensures Evolves(w, Next(w, ResumePending(callId, now, a)))
  {
    hide Agreed, Fold, RunTool, Land, OfferFits;
    if w.Open? && callId in w.offers && Actionable(w.offers[callId].approval, now) {
      if !SessionOver(w.live.session.status) {
        ResumeTurnFits(w.config, w.live, w.offers, callId, a);
      }
    }
  }

  lemma TimeUpIntact(w: World)
    requires Intact(w)
    ensures Evolves(w, Next(w, TimeUp))
  {
    hide Agreed, Fold, TimeOut, OfferFits, Grants;
    if w.Open? {
      TimeOutKeeps(w.config, w.live);
    }
  }

  lemma LeaveKeeps(c: Config, l: Live, raised: bool, timedOut: bool)
    requires Agreed(l)
    ensures var m := Leave(c, l, raised, timedOut);
            Agreed(m) && m.session.runId == l.session.runId && l.log <= m.log && (Quiet(l) ==> Quiet(m))
  {
    hide Fold, Step, Recorded, Tracks, QuietState;
    AgreedKnows(l);
    var left :=
      if raised then (if l.session.status == WaitingApproval then l else FailSession(c, l))
      else if timedOut then TimeOut(c, l)
      else Close(c, l);
    if raised {
      if l.session.status == Running {
        FailKeeps(c, l);
      }
    } else if timedOut {
      TimeOutKeeps(c, l);
    } else {
      CloseKeeps(c, l);
    }
    NotYetCreated(l);
    if SessionOver(left.session.status) {
      PassiveKeeps(left, Noted(left.session.runId, "run_completed"));
    }
  }

  lemma ExitIntact(w: World, raised: bool, timedOut: bool)
    requires Intact(w)
    ensures Evolves(w, Next(w, Exit(raised, timedOut)))
  {
    hide Leave, Agreed, Fold, Sound, OffersFit;
    if w.Open? {
      LeaveKeeps(w.config, w.live, raised, timedOut);
      AgreedIsSound(Leave(w.config, w.live, raised, timedOut));
    }
  }

  lemma DecisionAgrees(l: Live, events: seq<Event>)
    requires Agreed(l) && Sound(l.session.runId, l.log + events, l.runs) && !EndsInRequest(l.log + events)
    requires SameButApprovals(Fold(l.session.runId, l.log + events).value, Rebuilt(l).value)
    ensures var m := l.(log := l.log + events); Agreed(m) && CallsKept(l, m, None)
  {
    AgreedKnows(l);
    var m := l.(log := l.log + events);
    var st, st' := Rebuilt(l).value, Rebuilt(m).value;
    hide Fold, Step, Known, Paired, AllLicensed, Ided;
    forall id | id in st'.calls
      ensures Backed(st', id)
    {
      assert Backed(st, id);
    }
    assert Tracks(m, st');
  }

  /** A misruled log is one nobody can write to again. */
  lemma MisruledIsDead(runId: string, log: seq<Event>)
    requires Fold(runId, log).None?
    ensures Replayed(runId, log).None?
  {
  }

  /** A decision appends events of its run, and no requests. */
  lemma RulingIsOwn(runId: string, log: seq<Event>, c: Command)
    requires c.DecideApproval?
    ensures forall e | e in Ruling(runId, log, c) :: RunOf(e) == runId && (e.ApprovalDecided? || e.Noted?)
    ensures Ruling(runId, log, c) != [] ==> !Blank(runId)
  {
    if Fold(runId, log).Some? {
      OwnState(runId, log);
    }
    hide Fold;
  }

  lemma DecideStored(runId: string, log: seq<Event>, runs: seq<nat>, c: Command)
    requires Stored(runId, log, runs) && c.DecideApproval?
    ensures Stored(runId, log + Ruling(runId, log, c), runs)
  {
    hide Sound, Misnamed;
    var longer := log + Ruling(runId, log, c);
    if Sound(runId, log, runs) {
      RulingIsOwn(runId, log, c);
      hide Ruling, Fold;
      RulingSound(runId, log, runs, c);
      assert |longer| == |log| + 1 ==> longer[..|longer| - 1] == log && longer[|longer| - 1] in Ruling(runId, log, c);
    } else {
      MisruledIsDead(runId, log);
      assert longer == log;
    }
  }

  /** A ruling decides one pending approval, and does nothing else. */
  lemma RulingDecides(runId: string, log: seq<Event>, runs: seq<nat>, c: Command) returns (a: ApprovalRequest)
    requires Sound(runId, log, runs) && c.DecideApproval?
    requires Ruling(runId, log, c) != [] && !Misruled(Ruling(runId, log, c))
    ensures Decides(runId, log, Ruling(runId, log, c), c.approvalId, a)
  {
    ReplayedIsWhole(runId, log, runs);
    hide Sound, Fold, Step, Replayed, AllBacked, OfRun;
    var before := Replayed(runId, log).value.approvals[c.approvalId];
    var late := Expired(before, At(c.checkedAt)) == Some(true);
    var verdict := if late then Denial(c.approver, EXPIRY_REASON, At(c.decidedAt))
                   else if c.approves then Approval(c.approver, c.reason, At(c.decidedAt))
                   else Denial(c.approver, c.reason, At(c.decidedAt));
    a := before.(verdict := verdict);
    var e := ApprovalDecided(a);
    if late {
      NoteSound(runId, log, runs, "approval_expired");
      var noted := log + [Noted(runId, "approval_expired")];
      DecisionSound(runId, noted, runs, before, verdict, true);
      assert noted + [e] == log + [Noted(runId, "approval_expired"), e];
    } else {
      DecisionSound(runId, log, runs, before, verdict, false);
    }
  }

  lemma NothingInserted(log: seq<Event>, runs: seq<nat>, at: nat)
    requires at <= |log|
    ensures Inserted(log, at, []) == log && Shifted(runs, at, 0) == runs
  {
  }

  /** What the log up to the decision says of the decision, and the log with it. */
  lemma RulingWithin(runId: string, log: seq<Event>, runs: seq<nat>, at: nat, c: Command) returns (a: ApprovalRequest)
    requires Sound(runId, log, runs) && at <= |log| && c.DecideApproval?
    requires Ruling(runId, log[..at], c) != [] && !Misruled(Ruling(runId, log[..at], c))
    ensures Decides(runId, log[..at], Ruling(runId, log[..at], c), c.approvalId, a)
    ensures var head := log[..at] + Ruling(runId, log[..at], c);
            Paired(head) && Known(runId, head) && !EndsInRequest(head)
  {
    SoundPrefix(runId, log, runs, at, 0);
    a := RulingDecides(runId, log[..at], [], c);
    RulingSound(runId, log[..at], [], c);
    DecidedIsSame(runId, log[..at], Ruling(runId, log[..at], c), c.approvalId, a);
    hide Fold, Ruling, Misruled, Decides, Paired, Known;
  }

  lemma LastIsInTail(log: seq<Event>, at: nat)
    requires at < |log|
    ensures log[at..][|log| - 1 - at] == log[|log| - 1]
  {
  }

  lemma MeanwhileStored(runId: string, log: seq<Event>, runs: seq<nat>, at: nat, c: Command)
    requires Stored(runId, log, runs) && at <= |log| && NoDecision(log[at..]) && c.DecideApproval?
    requires !Misruled(Ruling(runId, log[..at], c))
    ensures var events := Ruling(runId, log[..at], c);
            Stored(runId, Inserted(log, at, events), Shifted(runs, at, |events|))
  {
    var events := Ruling(runId, log[..at], c);
    NothingInserted(log, runs, at);
    if Sound(runId, log, runs) {
      if events != [] {
        var a := RulingWithin(runId, log, runs, at, c);
        hide Sound, Ruling, Decides, Paired, Known, Inserted, Misruled;
        InsertedIsSound(runId, log, runs, at, events, c.approvalId, a);
      }
    } else {
      hide Sound;
      if at < |log| {
        LastIsInTail(log, at);
        assert false;
      }
      assert log[..at] == log;
      MisruledIsDead(runId, log);
    }
  }

  /** Offers are of calls and arguments, and of verdicts given, which a decision leaves. */
  lemma OffersStay(l: Live, m: Live, offers: map<string, Offer>, k: string, a: ApprovalRequest)
    requires OffersFit(l, offers) && m.session == l.session && Rebuilt(l).Some?
    requires Rebuilt(m) == Some(WithDecided(Rebuilt(l).value, k, a))
    requires k in Rebuilt(l).value.approvals && Rebuilt(l).value.approvals[k].verdict.Pending?
    ensures OffersFit(m, offers)
  {
    hide Fold;
    if !SessionOver(m.session.status) {
      forall id | id in offers
        ensures OfferFits(m, id, offers[id])
      {
        var o := offers[id];
        assert OfferFits(l, id, o);
        if !o.approval.verdict.Pending? {
          var n :| n in Grants(l) && Grants(l)[n] == o.approval;
          assert n in Grants(m) && Grants(m)[n] == o.approval;
        }
      }
    }
  }

  lemma MeanwhileAgrees(l: Live, offers: map<string, Offer>, at: nat, c: Command)
    requires Agreed(l) && OffersFit(l, offers) && at <= |l.log| && NoDecision(l.log[at..]) && c.DecideApproval?
    requires !Misruled(Ruling(l.session.runId, l.log[..at], c))
    ensures var events := Ruling(l.session.runId, l.log[..at], c);
            var m := l.(log := Inserted(l.log, at, events), runs := Shifted(l.runs, at, |events|));
            Agreed(m) && OffersFit(m, offers)
  {
    var runId := l.session.runId;
    var events := Ruling(runId, l.log[..at], c);
    hide Agreed, OffersFit, Ruling, Misruled, Sound, Inserted, Decides, Paired, Known, NoDecision;
    NothingInserted(l.log, l.runs, at);
    if events != [] {
      AgreedIsSound(l);
      var a := RulingWithin(runId, l.log, l.runs, at, c);
      InsertedAgrees(l, at, events, c.approvalId, a);
      InsertedIsSound(runId, l.log, l.runs, at, events, c.approvalId, a);
      SoundFolds(runId, l.log, l.runs);
      hide Fold;
      OffersStay(l, l.(log := Inserted(l.log, at, events), runs := Shifted(l.runs, at, |events|)), offers,
                 c.approvalId, a);
    }
  }

  lemma SoundFolds(runId: string, log: seq<Event>, runs: seq<nat>)
    requires Sound(runId, log, runs)
    ensures Fold(runId, log).Some?
  {
    hide Fold, Paired, Known, AllLicensed, Ided;
  }

  lemma InterleavedIntact(w: World, at: nat, c: Command)
    requires Intact(w) && at <= |LogOf(w)| && NoDecision(LogOf(w)[at..]) && c.DecideApproval?
    requires !Misruled(Ruling(RunIdOf(w), LogOf(w)[..at], c))
    ensures Intact(Interleaved(w, at, Ruling(RunIdOf(w), LogOf(w)[..at], c)))
  {
    hide Stored, Agreed, OffersFit, Ruling, Misruled, Inserted, NoDecision;
    if w.Closed? {
      MeanwhileStored(w.runId, w.log, w.runs, at, c);
    } else {
      MeanwhileAgrees(w.live, w.offers, at, c);
    }
  }

  lemma InsertedGrows(before: seq<Event>, log: seq<Event>, at: nat, events: seq<Event>)
    requires before <= log && |before| <= at <= |log|
    ensures before <= Inserted(log, at, events)
  {
  }

  lemma MeanwhileIntact(w: World, during: Command, at: nat, decision: Command)
    requires Intact(w) && Evolves(w, Next(w, during))
    ensures Evolves(w, Next(w, Meanwhile(during, at, decision)))
  {
    var after := Next(w, during);
    MeanwhileLeaves(w, during, at, decision);
    hide Next, Intact, Ruling, Misruled, Inserted, Shifted;
    if Interleaves(w, after, at, decision) {
      InterleavedIntact(after, at, decision);
      InsertedGrows(LogOf(w), LogOf(after), at, Ruling(RunIdOf(w), LogOf(after)[..at], decision));
    }
  }

  lemma MeanwhileLeaves(w: World, during: Command, at: nat, decision: Command)
    ensures var after := Next(w, during);
            Next(w, Meanwhile(during, at, decision)) ==
            if Interleaves(w, after, at, decision)
            then Interleaved(after, at, Ruling(RunIdOf(w), LogOf(after)[..at], decision)) else after
  {
    hide Ruling, Misruled, Execute, ResumeCall, Leave, TimeOut, AnswerFinally, Cancelling, Replayed, Resumable;
    hide Restored, OffersOf, Grants, Start, Interleaved, FallsWithin, CutsThrough, ValidSession, Actionable;
  }

  lemma DecideOpen(l: Live, offers: map<string, Offer>, c: Command)
    requires Agreed(l) && OffersFit(l, offers) && c.DecideApproval?
    requires !Misruled(Ruling(l.session.runId, l.log, c))
    ensures var m := l.(log := l.log + Ruling(l.session.runId, l.log, c)); Agreed(m) && OffersFit(m, offers)
  {
    hide Agreed, Ruling, Fold, Sound, Misruled, CallsKept, OfferFits;
    var events := Ruling(l.session.runId, l.log, c);
    AgreedIsSound(l);
    NotInRequest(l);
    RulingSound(l.session.runId, l.log, l.runs, c);
    DecisionAgrees(l, events);
    if !SessionOver(l.session.status) {
      OffersSurvive(l, l.(log := l.log + events), offers, None);
    }
  }

  lemma DecidingAppends(w: World, c: Command)
    requires w.Closed? && c.DecideApproval?
    ensures Next(w, c) == w.(log := w.log + Ruling(w.runId, w.log, c))
  {
    hide Ruling;
  }

  lemma DecideIntact(w: World, c: Command)
    requires Intact(w) && c.DecideApproval?
    ensures Evolves(w, Next(w, c))
  {
    hide Agreed, OffersFit, Stored, Ruling, Misruled;
    if w.Closed? {
      DecideStored(w.runId, w.log, w.runs, c);
    } else if !w.locked && !Misruled(Ruling(RunIdOf(w), LogOf(w), c)) {
      DecideOpen(w.live, w.offers, c);
    }
  }

  lemma NotInRequest(l: Live)
    requires Agreed(l)
    ensures !EndsInRequest(l.log)
  {
  }

  lemma ResumeIntact(w: World, config: Config, callId: string, now: int)
    requires Intact(w)
    ensures Evolves(w, Next(w, Resume(config, callId, now)))
  {
    hide Agreed, Fold, Restored, OffersFit, OffersOf, Resumable, Sound, Misruled, LastSequence;
    if w.Closed? && Replayed(w.runId, w.log).Some? && Resumable(Replayed(w.runId, w.log).value, callId, now) {
      RestoredAgrees(w.runId, w.log, w.runs, callId, now);
    }
  }

  lemma CancelStored(runId: string, log: seq<Event>, runs: seq<nat>, c: Command)
    requires Stored(runId, log, runs) && c.Cancel?
    ensures Stored(runId, Cancelling(runId, log, c).log, runs) && log <= Cancelling(runId, log, c).log
  {
    hide Sound, Misruled;
    if Sound(runId, log, runs) {
      hide Cancelling, Fold;
      CancelSound(runId, log, runs, c);
    } else {
      MisruledIsDead(runId, log);
    }
  }

  lemma CancelIntact(w: World, c: Command)
    requires Intact(w) && c.Cancel?
    ensures Evolves(w, Next(w, c))
  {
    hide Stored, Cancelling, Agreed, OffersFit;
    if w.Closed? {
      CancelStored(w.runId, w.log, w.runs, c);
    }
  }

  lemma CrashIntact(w: World, after: World, kept: nat, runsKept: nat)
    requires Intact(w) && Evolves(w, after) && CutsThrough(w, after, kept, runsKept)
    ensures Evolves(w, Closed(RunIdOf(w), LogOf(after)[..kept], RunsOf(after)[..runsKept]))
  {
    hide Sound, Fold, Misnamed, Agreed, OffersFit;
    var runId, log, runs := RunIdOf(w), LogOf(after), RunsOf(after);
    if after.Open? {
      AgreedIsSound(after.live);
    }
    if Sound(runId, log, runs) {
      SoundPrefix(runId, log, runs, kept, runsKept);
    } else {
      var good := log[..|log| - 1];
      RunsWithin(runId, good, runs);
      if kept == |log| {
        assert log[..kept] == log;
        SoundPrefix(runId, good, runs, |good|, runsKept);
        assert good[..|good|] == good;
      } else {
        SoundPrefix(runId, good, runs, kept, runsKept);
        assert good[..kept] == log[..kept];
      }
    }
  }

  lemma RunsWithin(runId: string, log: seq<Event>, runs: seq<nat>)
    requires Sound(runId, log, runs)
    ensures forall j | 0 <= j < |runs| :: runs[j] < |log|
  {
    forall j | 0 <= j < |runs|
      ensures runs[j] < |log|
    {
      assert Licensed(runId, log, runs[j]);
    }
  }

  lemma {:induction false} NextIntact(w: World, cmd: Command)
    requires Intact(w)
    ensures Evolves(w, Next(w, cmd))
    decreases cmd
  {
    hide Next, Evolves, Intact;
    match cmd
    case Begin(config, session) => BeginIntact(w, config, session);
    case Call(toolName, arguments, a) => CallIntact(w, toolName, arguments, a);
    case SubmitAnswer(verified) => AnswerIntact(w, verified);
    case ResumePending(callId, now, a) => ResumePendingIntact(w, callId, now, a);
    case TimeUp => TimeUpIntact(w);
    case Exit(raised, timedOut) => ExitIntact(w, raised, timedOut);
    case DecideApproval(_, _, _, _, _, _) => DecideIntact(w, cmd);
    case Resume(config, callId, now) => ResumeIntact(w, config, callId, now);
    case Cancel(_, _, _, _, _) => CancelIntact(w, cmd);
    case Crash(during, kept, runsKept) =>
      NextIntact(w, during);
      CrashCase(w, during, kept, runsKept);
    case Meanwhile(during, at, decision) =>
      NextIntact(w, during);
      MeanwhileIntact(w, during, at, decision);
  }

  lemma CrashCase(w: World, during: Command, kept: nat, runsKept: nat)
    requires Intact(w) && Evolves(w, Next(w, during))
    ensures Evolves(w, Next(w, Crash(during, kept, runsKept)))
  {
    hide Intact, CutsThrough;
    var after := Next(w, during);
    CrashLeaves(w, during, kept, runsKept);
    hide Next;
    if CutsThrough(w, after, kept, runsKept) {
      CrashIntact(w, after, kept, runsKept);
    }
  }

  lemma CrashLeaves(w: World, during: Command, kept: nat, runsKept: nat)
    ensures var after := Next(w, during);
            Next(w, Crash(during, kept, runsKept)) ==
            if CutsThrough(w, after, kept, runsKept)
            then Closed(RunIdOf(w), LogOf(after)[..kept], RunsOf(after)[..runsKept]) else w
  {
    hide CutsThrough;
  }
}
