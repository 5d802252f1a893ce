/** What stands after a decision, a cancellation or a resumption: for each of them exactly when
    it goes through, and what it leaves in the replayed state. */
module Decisions {
  import opened Texts
  import opened Lifecycle
  import opened Entities
  import opened Replay
  import opened ReplaySoundness
  import opened Pipeline
  import opened Agreement
  import opened CrashConsistency
  import opened Lifetimes
  import opened LifetimeProofs
  import opened Histories
  import opened ExecutionGate
  import opened CallOutcomes

  predicate Overdue(a: ApprovalRequest, at: int) {
    a.expiresAt.Some? && a.expiresAt.value.At? && a.expiresAt.value.instant <= at
  }

  /** Its expiry, if it has one, is an instant. */
  predicate Timed(a: ApprovalRequest) { a.expiresAt.Some? ==> a.expiresAt.value.At? }

  // ----- Deciding -----

  /** A decision can be recorded: on a pending request, by somebody with a name, giving a reason
      unless the request has run out; and it does not run out while it is being decided. */
  predicate Decidable(a: ApprovalRequest, c: Command)
    requires c.DecideApproval?
  {
    && a.verdict.Pending? && Timed(a) && !Blank(c.approver)
    && (Overdue(a, c.checkedAt) <==> Overdue(a, c.decidedAt))
    && (Overdue(a, c.checkedAt) || !Blank(c.reason))
  }

  /** The verdict that then stands: an overdue request is denied whatever was asked. */
  function VerdictOf(a: ApprovalRequest, c: Command): Verdict
    requires c.DecideApproval?
  {
    if Overdue(a, c.checkedAt) then Denial(c.approver, EXPIRY_REASON, At(c.decidedAt))
    else if c.approves then Approval(c.approver, c.reason, At(c.decidedAt))
    else Denial(c.approver, c.reason, At(c.decidedAt))
  }

  lemma RulingRecords(runId: string, log: seq<Event>, c: Command)
    requires c.DecideApproval?
    ensures var r, events := Replayed(runId, log), Ruling(runId, log, c);
            && (events != [] <==>
                  r.Some? && c.approvalId in r.value.approvals && Decidable(r.value.approvals[c.approvalId], c))
            && (events != [] ==>
                  var a := r.value.approvals[c.approvalId];
                  events == (if Overdue(a, c.checkedAt) then [Noted(runId, "approval_expired")] else [])
                            + [ApprovalDecided(a.(verdict := VerdictOf(a, c)))])
  {
    hide Replayed;
    assert !IsSpace(EXPIRY_REASON[0]);
  }

  lemma RulingChanges(runId: string, log: seq<Event>, runs: seq<nat>, c: Command)
    requires Sound(runId, log, runs) && c.DecideApproval? && Ruling(runId, log, c) != []
    requires !Misruled(Ruling(runId, log, c))
    ensures Replayed(runId, log).Some? && c.approvalId in Replayed(runId, log).value.approvals
    ensures var st := Replayed(runId, log).value;
            var a := st.approvals[c.approvalId];
            Fold(runId, log + Ruling(runId, log, c)) ==
            Some(st.(approvals := st.approvals[c.approvalId := a.(verdict := VerdictOf(a, c))]))
  {
    RulingRecords(runId, log, c);
    var st := Replayed(runId, log).value;
    var a := st.approvals[c.approvalId];
    var verdict, late := VerdictOf(a, c), Overdue(a, c.checkedAt);
    ReplayedIsWhole(runId, log, runs);
    VerdictTaken(a, c);
    var e := ApprovalDecided(a.(verdict := verdict));
    hide Sound, Fold, Step, Replayed, AllBacked, OfRun, Ruling, Expire, Decide;
    if late {
      var noted := log + [Noted(runId, "approval_expired")];
      assert Ruling(runId, log, c) == [Noted(runId, "approval_expired"), e];
      assert noted + [e] == log + [Noted(runId, "approval_expired"), e];
      NoteSound(runId, log, runs, "approval_expired");
      DecisionSound(runId, noted, runs, a, verdict, true);
    } else {
      assert Ruling(runId, log, c) == [e];
      DecisionSound(runId, log, runs, a, verdict, false);
    }
  }

  lemma VerdictTaken(a: ApprovalRequest, c: Command)
    requires c.DecideApproval? && Decidable(a, c)
    ensures var verdict := VerdictOf(a, c);
            && !verdict.Pending?
            && (if Overdue(a, c.checkedAt) then Expire(a, verdict.approver, verdict.at) else Decide(a, verdict)) ==
               Some(a.(verdict := verdict))
  {
    assert !IsSpace(EXPIRY_REASON[0]);
  }

  // ----- Cancelling -----

  /** How long the log is when the i-th approval of the order has its turn. */
  function TurnOf(n: nat, approvals: map<string, ApprovalRequest>, order: seq<string>, i: nat, c: Command): nat
    requires c.Cancel? && i <= |order| && forall j | 0 <= j < |order| :: order[j] in approvals
    decreases i
  {
    if i == 0 then n
    else
      var a := approvals[order[0]];
      var written := if !a.verdict.Pending? then 0 else if Overdue(a, c.checks(n)) then 2 else 1;
      TurnOf(n + written, approvals, order[1..], i - 1, c)
  }

  /** A pending approval can be denied in its turn. */
  predicate Deniable(a: ApprovalRequest, c: Command, turn: nat)
    requires c.Cancel?
  {
    a.verdict.Pending? ==>
      !Blank(c.actor) && Timed(a) && (Overdue(a, c.checks(turn)) <==> Overdue(a, c.clock(turn)))
  }

  /** What a cancellation makes of an approval at a given time: a pending one is denied by the
      actor, one that has run out for the reserved reason, and a decided one is left alone. */
  function AfterCancel(a: ApprovalRequest, actor: string, at: int): ApprovalRequest {
    if !a.verdict.Pending? then a
    else a.(verdict := Denial(actor, if Overdue(a, at) then EXPIRY_REASON else "session_cancelled", At(at)))
  }

  lemma DeniableIff(a: ApprovalRequest, c: Command, turn: nat)
    requires c.Cancel? && a.verdict.Pending?
    ensures var late := Expired(a, At(c.checks(turn))) == Some(true);
            var at := At(c.clock(turn));
            var decided := if late then Expire(a, c.actor, at) else Decide(a, Denial(c.actor, "session_cancelled", at));
            && (late <==> Overdue(a, c.checks(turn)))
            && (decided.Some? <==> Deniable(a, c, turn))
            && (decided.Some? ==> decided.value == AfterCancel(a, c.actor, c.clock(turn)))
  {
    assert !IsSpace("session_cancelled"[0]);
  }

  /** How far the loop goes: to the first approval that cannot be denied in its turn. */
  predicate GoesTo(n: nat, length: nat, approvals: map<string, ApprovalRequest>, order: seq<string>, c: Command)
    requires c.Cancel? && forall j | 0 <= j < |order| :: order[j] in approvals
  {
    && n <= |order|
    && (forall i | 0 <= i < n :: Deniable(approvals[order[i]], c, TurnOf(length, approvals, order, i, c)))
    && (n < |order| ==> !Deniable(approvals[order[n]], c, TurnOf(length, approvals, order, n, c)))
  }

  /** The first n of the order have been decided, each in its turn, and the others left alone. */
  predicate CancelledTo(before: map<string, ApprovalRequest>, after: map<string, ApprovalRequest>, n: nat, length: nat,
                        approvals: map<string, ApprovalRequest>, order: seq<string>, c: Command)
    requires c.Cancel? && forall j | 0 <= j < |order| :: order[j] in approvals
  {
    && n <= |order| && after.Keys == before.Keys
    && (forall i | 0 <= i < n ::
          order[i] in after
          && after[order[i]] ==
             AfterCancel(approvals[order[i]], c.actor, c.clock(TurnOf(length, approvals, order, i, c))))
    && (forall k | k in after && k !in order[..n] :: after[k] == before[k])
  }

  lemma OneMoreTurn(approvals: map<string, ApprovalRequest>, order: seq<string>, length: nat, next: nat, m: nat,
                    c: Command)
    requires c.Cancel? && order != [] && forall j | 0 <= j < |order| :: order[j] in approvals
    requires next == TurnOf(length, approvals, order, 1, c) && Deniable(approvals[order[0]], c, length)
    requires GoesTo(m, next, approvals, order[1..], c)
    ensures GoesTo(m + 1, length, approvals, order, c)
    ensures TurnOf(length, approvals, order, m + 1, c) == TurnOf(next, approvals, order[1..], m, c)
  {
    hide Deniable;
    assert forall i | 0 <= i < |order| - 1 :: order[1..][i] == order[i + 1];
    forall i | 0 < i <= |order|
      ensures TurnOf(length, approvals, order, i, c) == TurnOf(next, approvals, order[1..], i - 1, c)
    {
    }
    forall i | 0 <= i < m + 1
      ensures Deniable(approvals[order[i]], c, TurnOf(length, approvals, order, i, c))
    {
      if i > 0 {
        assert Deniable(approvals[order[1..][i - 1]], c, TurnOf(next, approvals, order[1..], i - 1, c));
      }
    }
  }

  lemma OneMoreCancelled(before: map<string, ApprovalRequest>, mid: map<string, ApprovalRequest>,
                         after: map<string, ApprovalRequest>, m: nat, length: nat, next: nat,
                         approvals: map<string, ApprovalRequest>, order: seq<string>, c: Command)
    requires c.Cancel? && order != [] && Distinct(order) && forall j | 0 <= j < |order| :: order[j] in approvals
    requires order[0] in before && before[order[0]] == approvals[order[0]]
    requires next == TurnOf(length, approvals, order, 1, c)
    requires mid == before[order[0] := AfterCancel(approvals[order[0]], c.actor, c.clock(length))]
    requires CancelledTo(mid, after, m, next, approvals, order[1..], c)
    ensures CancelledTo(before, after, m + 1, length, approvals, order, c)
  {
    hide AfterCancel;
    var rest := order[1..];
    assert forall i | 0 <= i < |rest| :: rest[i] == order[i + 1];
    assert order[..m + 1] == [order[0]] + rest[..m];
    forall i | 0 <= i < m + 1
      ensures order[i] in after
      ensures after[order[i]] ==
              AfterCancel(approvals[order[i]], c.actor, c.clock(TurnOf(length, approvals, order, i, c)))
    {
      if i > 0 {
        assert rest[i - 1] == order[i];
        assert TurnOf(length, approvals, order, i, c) == TurnOf(next, approvals, rest, i - 1, c);
      } else {
        assert order[0] !in rest[..m];
      }
    }
  }

  /** The approvals loop: it goes as far as the first approval that cannot be denied in its turn,
      and everything before that is decided as it should be. */
  lemma {:induction false} DenyPendingDoes(runId: string, log: seq<Event>, runs: seq<nat>,
                                           approvals: map<string, ApprovalRequest>, order: seq<string>, c: Command)
    returns (n: nat)
    requires Sound(runId, log, runs) && !EndsInRequest(log) && !Blank(runId)
    requires c.Cancel? && Distinct(order) && OwnApprovals(runId, approvals)
    requires forall i | 0 <= i < |order| ::
               && order[i] in approvals && order[i] in Fold(runId, log).value.approvals
               && Fold(runId, log).value.approvals[order[i]] == approvals[order[i]]
    ensures GoesTo(n, |log|, approvals, order, c)
    ensures var p := DenyPending(runId, log, approvals, order, c);
            && (p.done <==> n == |order|) && |p.log| == TurnOf(|log|, approvals, order, n, c)
            && Sound(runId, p.log, runs) && !EndsInRequest(p.log)
            && var before, after := Fold(runId, log).value, Fold(runId, p.log).value;
               && SameButApprovals(after, before)
               && CancelledTo(before.approvals, after.approvals, n, |log|, approvals, order, c)
    decreases |order|
  {
    hide Sound, Fold, Step, EndsInRequest, Deniable, AfterCancel, GoesTo, CancelledTo, TurnOf, Overdue;
    SoundFolds(runId, log, runs);
    FirstTurn(|log|, approvals, order, c);
    if order == [] {
      NoTurns(Fold(runId, log).value.approvals, |log|, approvals, order, c);
      return 0;
    }
    var a, rest := approvals[order[0]], order[1..];
    assert order == [order[0]] + rest;
    var before := Fold(runId, log).value.approvals;
    var next := log;
    if a.verdict.Pending? {
      DeniableIff(a, c, |log|);
      if !Deniable(a, c, |log|) {
        NoTurns(before, |log|, approvals, order, c);
        return 0;
      }
      next := DenyOne(runId, log, runs, a, c);
      SoundFolds(runId, next, runs);
    } else {
      DecidedIsDeniable(a, c, |log|);
      assert before == before[order[0] := a];
    }
    var m := DenyPendingDoes(runId, next, runs, approvals, rest, c);
    n := m + 1;
    SoundFolds(runId, DenyPending(runId, next, approvals, rest, c).log, runs);
    OneMoreTurn(approvals, order, |log|, |next|, m, c);
    OneMoreCancelled(before, Fold(runId, next).value.approvals,
                     Fold(runId, DenyPending(runId, next, approvals, rest, c).log).value.approvals, m, |log|, |next|,
                     approvals, order, c);
  }

  lemma FirstTurn(length: nat, approvals: map<string, ApprovalRequest>, order: seq<string>, c: Command)
    requires c.Cancel? && forall j | 0 <= j < |order| :: order[j] in approvals
    ensures TurnOf(length, approvals, order, 0, c) == length
    ensures order != [] ==>
              var a := approvals[order[0]];
              TurnOf(length, approvals, order, 1, c) ==
              length + (if !a.verdict.Pending? then 0 else if Overdue(a, c.checks(length)) then 2 else 1)
  {
    hide Overdue;
  }

  lemma NoTurns(before: map<string, ApprovalRequest>, length: nat, approvals: map<string, ApprovalRequest>,
                order: seq<string>, c: Command)
    requires c.Cancel? && forall j | 0 <= j < |order| :: order[j] in approvals
    ensures CancelledTo(before, before, 0, length, approvals, order, c)
    ensures order == [] || !Deniable(approvals[order[0]], c, length) ==> GoesTo(0, length, approvals, order, c)
  {
    hide Deniable, AfterCancel;
  }

  lemma DecidedIsDeniable(a: ApprovalRequest, c: Command, turn: nat)
    requires c.Cancel? && !a.verdict.Pending?
    ensures Deniable(a, c, turn) && forall actor, at :: AfterCancel(a, actor, at) == a
  {
  }

  /** One round of the loop. */
  lemma DenyOne(runId: string, log: seq<Event>, runs: seq<nat>, a: ApprovalRequest, c: Command)
    returns (next: seq<Event>)
    requires Sound(runId, log, runs) && !EndsInRequest(log) && !Blank(runId) && c.Cancel?
    requires a.approvalId in Fold(runId, log).value.approvals && Fold(runId, log).value.approvals[a.approvalId] == a
    requires a.verdict.Pending? && Deniable(a, c, |log|)
    ensures var late := Expired(a, At(c.checks(|log|))) == Some(true);
            var at := At(c.clock(|log|));
            var decided := if late then Expire(a, c.actor, at) else Decide(a, Denial(c.actor, "session_cancelled", at));
            var noted := if late then log + [Noted(runId, "approval_expired")] else log;
            && decided.Some? && next == noted + [ApprovalDecided(decided.value)]
    ensures |next| == |log| + (if Overdue(a, c.checks(|log|)) then 2 else 1)
    ensures Sound(runId, next, runs) && !EndsInRequest(next)
    ensures Fold(runId, next) == Some(Fold(runId, log).value.(approvals :=
              Fold(runId, log).value.approvals[a.approvalId := AfterCancel(a, c.actor, c.clock(|log|))]))
  {
    DeniableIff(a, c, |log|);
    hide Sound, Fold, EndsInRequest, Deniable, AfterCancel;
    var late := Expired(a, At(c.checks(|log|))) == Some(true);
    DenyOneSound(runId, log, runs, a, c.actor, late, At(c.clock(|log|)));
    var noted := if late then log + [Noted(runId, "approval_expired")] else log;
    next := noted + [ApprovalDecided(AfterCancel(a, c.actor, c.clock(|log|)))];
  }

  /** Whoever cancels: the actor named, or else the session's. */
  function ActorOf(st: RunState, c: Command): string
    requires c.Cancel? && st.session.Some?
  {
    if c.actor == "" then st.session.value.actorId else c.actor
  }

  /** A cancellation goes through: the log replays to a session that goes on, and every pending
      approval can be denied in its turn. */
  predicate Cancellable(runId: string, log: seq<Event>, c: Command)
    requires c.Cancel?
  {
    var r := Replayed(runId, log);
    && r.Some? && r.value.session.Some? && !SessionOver(r.value.session.value.status)
    && Orders(c.approvalOrder, r.value.approvals.Keys) && Orders(c.callOrder, r.value.calls.Keys)
    && forall i | 0 <= i < |c.approvalOrder| ::
         Deniable(r.value.approvals[c.approvalOrder[i]], c.(actor := ActorOf(r.value, c)),
                  TurnOf(|log|, r.value.approvals, c.approvalOrder, i, c.(actor := ActorOf(r.value, c))))
  }

  /** An approval as a cancellation leaves it, at some time. */
  predicate ApprovalCancelled(before: ApprovalRequest, after: ApprovalRequest, actor: string) {
    if before.verdict.Pending? then
      && after.verdict.Denial? && after.verdict.at.At?
      && after == AfterCancel(before, actor, after.verdict.at.instant)
    else after == before
  }

  /** The state before a cancellation that has gone through, and after it. */
  predicate CancelledState(before: RunState, after: RunState, actor: string) {
    && before.session.Some? && after.session.Some?
    && SameSession(after.session.value, before.session.value) && after.session.value.status == Cancelled
    && after.approvals.Keys == before.approvals.Keys && after.calls.Keys == before.calls.Keys
    && (forall k | k in before.approvals :: ApprovalCancelled(before.approvals[k], after.approvals[k], actor))
    && (forall k | k in before.calls :: CallCancelled(before.calls[k], after.calls[k]))
    && after.facts == before.facts && after.arguments == before.arguments
  }

  lemma TurnsCover(before: map<string, ApprovalRequest>, after: map<string, ApprovalRequest>, n: nat, length: nat,
                   order: seq<string>, c: Command)
    requires c.Cancel? && Orders(order, before.Keys) && CancelledTo(before, after, n, length, before, order, c)
    ensures after.Keys == before.Keys
    ensures n == |order| ==> forall k | k in before :: ApprovalCancelled(before[k], after[k], c.actor)
    ensures forall k | k in before :: after[k] == before[k] || ApprovalCancelled(before[k], after[k], c.actor)
  {
    hide TurnOf;
    forall k | k in before
      ensures if k in order[..n] then ApprovalCancelled(before[k], after[k], c.actor) else after[k] == before[k]
    {
      if k in order[..n] {
        var i :| 0 <= i < n && order[i] == k;
      }
    }
    assert n == |order| ==> order[..n] == order;
  }

  /** The loops of a cancellation are entered. */
  predicate Enters(runId: string, log: seq<Event>, c: Command)
    requires c.Cancel?
  {
    var r := Replayed(runId, log);
    && r.Some? && !SessionOver(r.value.session.value.status)
    && Orders(c.approvalOrder, r.value.approvals.Keys) && Orders(c.callOrder, r.value.calls.Keys)
  }

  function DenyingAll(runId: string, log: seq<Event>, c: Command): Progress
    requires c.Cancel? && Enters(runId, log, c)
  {
    var st := Replayed(runId, log).value;
    DenyPending(runId, log, st.approvals, c.approvalOrder, c.(actor := ActorOf(st, c)))
  }

  lemma CancellingIs(runId: string, log: seq<Event>, c: Command)
    requires c.Cancel?
    ensures Cancelling(runId, log, c) ==
            if !Enters(runId, log, c) then Progress(log, false)
            else
              var st, denied := Replayed(runId, log).value, DenyingAll(runId, log, c);
              if !denied.done then denied
              else
                var refused := RefuseWaiting(denied.log, st.calls, c.callOrder, c);
                var s := st.session.value.(status := Cancelled, updatedAt := At(c.clock(|refused|)));
                Progress(refused + [SessionStatusChanged(s), Noted(runId, "run_completed")], true)
  {
    hide Replayed, DenyPending, RefuseWaiting;
  }

  /** The approvals as the first loop leaves them. */
  lemma ApprovalsDenied(runId: string, log: seq<Event>, runs: seq<nat>, c: Command)
    requires Sound(runId, log, runs) && c.Cancel? && Enters(runId, log, c)
    ensures var p := DenyingAll(runId, log, c);
            && (p.done <==> Cancellable(runId, log, c))
            && Sound(runId, p.log, runs) && !EndsInRequest(p.log)
            && var before, after := Fold(runId, log).value, Fold(runId, p.log).value;
               && before.session.Some? && SameButApprovals(after, before)
               && after.approvals.Keys == before.approvals.Keys
               && (forall k | k in before.approvals ::
                     || ApprovalCancelled(before.approvals[k], after.approvals[k], ActorOf(before, c))
                     || (!p.done && after.approvals[k] == before.approvals[k]))
  {
    var st := Replayed(runId, log).value;
    ReplayedIsWhole(runId, log, runs);
    hide Sound, Fold, Step, Replayed, AllBacked, EndsInRequest, Blank, ValidSession, Deniable, TurnOf, OfRun;
    hide ApprovalCancelled, CancelledTo, OwnApprovals, DenyPending;
    var named := c.(actor := ActorOf(st, c));
    var n := DenyPendingDoes(runId, log, runs, st.approvals, c.approvalOrder, named);
    var p := DenyingAll(runId, log, c);
    SoundFolds(runId, p.log, runs);
    TurnsCover(st.approvals, Fold(runId, p.log).value.approvals, n, |log|, c.approvalOrder, named);
  }

  lemma AllCallsCancelled(before: map<string, SessionToolCall>, after: map<string, SessionToolCall>, order: seq<string>)
    requires Orders(order, before.Keys) && after.Keys == before.Keys
    requires forall k | k in after ::
               if k in order then CallCancelled(before[k], after[k]) else after[k] == before[k]
    ensures forall k | k in before :: CallCancelled(before[k], after[k])
  {
    hide CallCancelled;
  }

  /** The calls, and the session's end. */
  lemma CallsRefused(runId: string, log: seq<Event>, runs: seq<nat>, st: RunState, c: Command)
    requires Sound(runId, log, runs) && !EndsInRequest(log) && !Blank(runId) && c.Cancel?
    requires SameButApprovals(Fold(runId, log).value, st) && Orders(c.callOrder, st.calls.Keys)
    requires st.session.Some? && ValidSession(st.session.value) && st.session.value.runId == runId
    requires !SessionOver(st.session.value.status) && OfRun(runId, st.calls)
    ensures var refused := RefuseWaiting(log, st.calls, c.callOrder, c);
            var s := st.session.value.(status := Cancelled, updatedAt := At(c.clock(|refused|)));
            var longer := refused + [SessionStatusChanged(s), Noted(runId, "run_completed")];
            && Fold(runId, longer).Some?
            && var after := Fold(runId, longer).value;
               && after.calls.Keys == st.calls.Keys
               && (forall k | k in st.calls :: CallCancelled(st.calls[k], after.calls[k]))
               && after == Fold(runId, log).value.(calls := after.calls, session := Some(s))
  {
    assert Ided(Fold(runId, log).value.calls);
    hide Sound, Fold, Step, EndsInRequest, Blank, ValidSession, OfRun, CallCancelled, RefuseWaiting, Ided;
    SoundFolds(runId, log, runs);
    assert Fold(runId, log).value.calls == st.calls;
    RefuseWaitingSound(runId, log, runs, st.calls, c.callOrder, c);
    var refused := RefuseWaiting(log, st.calls, c.callOrder, c);
    SoundFolds(runId, refused, runs);
    AllCallsCancelled(st.calls, Fold(runId, refused).value.calls, c.callOrder);
    CancelEnds(runId, refused, runs, st.session.value.(status := Cancelled, updatedAt := At(c.clock(|refused|))));
  }

  /** Exactly when a cancellation goes through, and what stands after it: each pending approval
      denied by the actor, each waiting call denied by policy, the session cancelled, and
      nothing else changed. One that stops on the way has denied approvals only. */
  lemma CancellingDoes(runId: string, log: seq<Event>, runs: seq<nat>, c: Command)
    requires Sound(runId, log, runs) && c.Cancel?
    ensures var p := Cancelling(runId, log, c);
            && (p.done <==> Cancellable(runId, log, c))
            && Fold(runId, p.log).Some?
            && var before, after := Fold(runId, log).value, Fold(runId, p.log).value;
               && (p.done ==> CancelledState(before, after, ActorOf(before, c)))
               && (!p.done ==>
                     && SameButApprovals(after, before) && after.approvals.Keys == before.approvals.Keys
                     && forall k | k in before.approvals ::
                          || after.approvals[k] == before.approvals[k]
                          || (before.session.Some?
                              && ApprovalCancelled(before.approvals[k], after.approvals[k], ActorOf(before, c))))
  {
    hide Sound, Fold, Step, Replayed, AllBacked, EndsInRequest, ValidSession, OfRun, OwnApprovals, Deniable, TurnOf;
    hide ApprovalCancelled, CallCancelled, Cancelling, Enters, Cancellable, RefuseWaiting, DenyingAll, Blank;
    SoundFolds(runId, log, runs);
    CancellingIs(runId, log, c);
    EntersIfCancellable(runId, log, c);
    if Enters(runId, log, c) {
      ApprovalsDenied(runId, log, runs, c);
      EntersWhole(runId, log, runs, c);
      var denied := DenyingAll(runId, log, c);
      SoundFolds(runId, denied.log, runs);
      if denied.done {
        CallsRefused(runId, denied.log, runs, Fold(runId, log).value, c);
      }
    }
  }

  lemma EntersIfCancellable(runId: string, log: seq<Event>, c: Command)
    requires c.Cancel?
    ensures Cancellable(runId, log, c) ==> Enters(runId, log, c)
  {
    hide Replayed, Deniable, TurnOf;
  }

  lemma EntersWhole(runId: string, log: seq<Event>, runs: seq<nat>, c: Command)
    requires Sound(runId, log, runs) && c.Cancel? && Enters(runId, log, c)
    ensures Fold(runId, log) == Replayed(runId, log) && Fold(runId, log).Some? && !Blank(runId)
    ensures var st := Fold(runId, log).value;
            && st.session.Some? && ValidSession(st.session.value) && st.session.value.runId == runId
            && !SessionOver(st.session.value.status) && OfRun(runId, st.calls) && Orders(c.callOrder, st.calls.Keys)
  {
    ReplayedIsWhole(runId, log, runs);
    hide Sound, Fold, Replayed, ValidSession, OfRun, Orders, Blank;
  }

  // ----- In every history -----

  /** What a decision leaves between processes: it is recorded exactly if it can be, and the
      verdict that then stands is the one given, or the reserved denial of an overdue request. */
  lemma DecisionStands(runId: string, history: seq<Command>, c: Command)
    requires c.DecideApproval? && After(Unborn(runId), history).Closed?
    ensures var log := LogOf(After(Unborn(runId), history));
            var log' := LogOf(Next(After(Unborn(runId), history), c));
            var r := Replayed(runId, log);
            if r.Some? && c.approvalId in r.value.approvals && Decidable(r.value.approvals[c.approvalId], c) then
              var a := r.value.approvals[c.approvalId];
              && log < log' && log'[|log'| - 1] == ApprovalDecided(a.(verdict := VerdictOf(a, c)))
              && (log'[|log|] == Noted(runId, "approval_expired") <==> Overdue(a, c.checkedAt))
              && (Overdue(a, c.checkedAt) || c.approves || c.reason != EXPIRY_REASON ==>
                    Fold(runId, log') ==
                    Some(r.value.(approvals := r.value.approvals[c.approvalId := a.(verdict := VerdictOf(a, c))])))
            else log' == log
  {
    var w := After(Unborn(runId), history);
    HistoryIntact(runId, history);
    RulingRecords(runId, w.log, c);
    var events := Ruling(runId, w.log, c);
    hide After, Intact, Ruling, Misruled, Sound, Fold, Decidable, VerdictOf, Overdue;
    DecidingAppends(w, c);
    if events != [] {
      MisruledIff(runId, w.log, c);
      OverdueIsExpired(Replayed(runId, w.log).value.approvals[c.approvalId], c.checkedAt);
      FoldedIsSound(w);
      if !Misruled(events) {
        RulingChanges(runId, w.log, w.runs, c);
      }
    }
  }

  lemma OverdueIsExpired(a: ApprovalRequest, at: int)
    ensures Overdue(a, at) <==> Expired(a, At(at)) == Some(true)
  {
  }

  /** What a cancellation leaves. */
  lemma CancelStands(runId: string, history: seq<Command>, c: Command)
    requires c.Cancel? && After(Unborn(runId), history).Closed?
    ensures var log := LogOf(After(Unborn(runId), history));
            var log' := LogOf(Next(After(Unborn(runId), history), c));
            if Cancellable(runId, log, c) then
              && Fold(runId, log').Some?
              && CancelledState(Replayed(runId, log).value, Fold(runId, log').value,
                                ActorOf(Replayed(runId, log).value, c))
            else
              (Fold(runId, log').Some? ==>
                 Fold(runId, log).Some? && SameButApprovals(Fold(runId, log').value, Fold(runId, log).value))
  {
    var w := After(Unborn(runId), history);
    HistoryIntact(runId, history);
    hide After, Intact, Cancelling, Sound, Fold, Cancellable, CancelledState, EndsInRequest, Misruled, Deniable, TurnOf;
    if Fold(runId, w.log).Some? {
      FoldedIsSound(w);
      CancellingDoes(runId, w.log, w.runs, c);
      if Cancellable(runId, w.log, c) {
        EntersIfCancellable(runId, w.log, c);
        EntersWhole(runId, w.log, w.runs, c);
      }
    } else {
      NothingCancelled(runId, w.log, c);
    }
  }

  lemma NothingCancelled(runId: string, log: seq<Event>, c: Command)
    requires c.Cancel? && Fold(runId, log).None?
    ensures Cancelling(runId, log, c) == Progress(log, false) && !Cancellable(runId, log, c)
  {
    assert Replayed(runId, log).None?;
    hide Replayed;
  }

  // ----- Resuming -----

  /** The call's request is decided and has not run out. */
  predicate HasVerdict(st: RunState, callId: string, now: int) {
    exists k | k in st.approvals ::
      st.approvals[k].callId == callId && !st.approvals[k].verdict.Pending?
      && Timed(st.approvals[k]) && !Overdue(st.approvals[k], now)
  }

  lemma HasVerdictIff(st: RunState, callId: string, now: int)
    requires SoundApprovals(st) && Asked(st.approvals, callId)
    ensures HasVerdict(st, callId, now) <==> Actionable(ApprovalOf(st.approvals, callId), now)
  {
    var a := ApprovalOf(st.approvals, callId);
    if HasVerdict(st, callId, now) {
      var k :| k in st.approvals && st.approvals[k].callId == callId && !st.approvals[k].verdict.Pending?
               && Timed(st.approvals[k]) && !Overdue(st.approvals[k], now);
      OnlyApproval(st, k);
    }
    if Actionable(a, now) {
      var k :| k in st.approvals && st.approvals[k] == a;
      assert Timed(a) && !Overdue(a, now);
    }
  }

  /** A stored run can be resumed for a call. */
  predicate CanResume(runId: string, log: seq<Event>, callId: string, now: int) {
    var r := Replayed(runId, log);
    && r.Some? && r.value.session.Some? && r.value.session.value.status == WaitingApproval
    && callId in Waiting(r.value.calls) && HasVerdict(r.value, callId, now)
    && forall id | id in Waiting(r.value.calls) :: Asked(r.value.approvals, id)
  }

  /** Exactly when a resume builds a session object, and what it holds: the replayed session,
      facts and waiting calls, the highest number given to a call, and no memory of an answer
      that was sent back. */
  lemma ResumesIff(runId: string, history: seq<Command>, config: Config, callId: string, now: int)
    requires After(Unborn(runId), history).Closed?
    ensures var w := After(Unborn(runId), history);
            var w' := Next(w, Resume(config, callId, now));
            if CanResume(runId, w.log, callId, now) then
              var st := Replayed(runId, w.log).value;
              && w'.Open? && w'.config == config && w'.locked
              && w'.live.log == w.log + [Noted(runId, "run_resumed")] && w'.live.runs == w.runs
              && Some(w'.live.session) == st.session && w'.live.facts == st.facts && !w'.live.blocked
              && w'.live.pending == Waiting(st.calls) && w'.offers.Keys == Waiting(st.calls)
              && (forall id | id in st.calls :: st.calls[id].sequence <= w'.live.sequence)
              && (exists id :: id in st.calls && st.calls[id].sequence == w'.live.sequence)
            else w' == w
  {
    var w := After(Unborn(runId), history);
    HistoryIntact(runId, history);
    hide After, Intact, CanResume, Resumable, Replayed, Restored, OffersOf, LastSequence;
    var r := Replayed(runId, w.log);
    CanResumeIff(w, callId, now);
    if r.Some? && Resumable(r.value, callId, now) {
      ReplayedMeans(w);
      RestoredHolds(runId, w.log, w.runs, callId, now);
    }
  }

  lemma CanResumeIff(w: World, callId: string, now: int)
    requires Intact(w) && w.Closed?
    ensures CanResume(w.runId, w.log, callId, now) <==>
              Replayed(w.runId, w.log).Some? && Resumable(Replayed(w.runId, w.log).value, callId, now)
  {
    hide Intact, HasVerdict, Actionable, SoundApprovals, Asked;
    if Replayed(w.runId, w.log).Some? {
      ReplayedMeans(w);
      var st := Replayed(w.runId, w.log).value;
      hide Replayed;
      if Asked(st.approvals, callId) {
        HasVerdictIff(st, callId, now);
      }
    }
  }

  lemma RestoredHolds(runId: string, log: seq<Event>, runs: seq<nat>, callId: string, now: int)
    requires Replayed(runId, log).Some? && Resumable(Replayed(runId, log).value, callId, now)
    requires var st := Replayed(runId, log).value; forall id | id in st.calls :: 1 <= st.calls[id].sequence
    ensures var st, l := Replayed(runId, log).value, Restored(runId, log, runs);
            && l.log == log + [Noted(runId, "run_resumed")] && l.runs == runs
            && Some(l.session) == st.session && l.facts == st.facts && !l.blocked && l.pending == Waiting(st.calls)
            && (forall id | id in st.calls :: st.calls[id].sequence <= l.sequence)
            && (exists id :: id in st.calls && st.calls[id].sequence == l.sequence)
            && st.calls.Keys <= st.arguments.Keys
            && OffersOf(st).Keys == Waiting(st.calls)
  {
    hide Asked, Actionable, Fold;
    var st := Replayed(runId, log).value;
    assert callId in st.calls && st.calls != map[];
  }

  lemma ReplayedMeans(w: World)
    requires Intact(w) && w.Closed? && Replayed(w.runId, w.log).Some?
    ensures var st := Replayed(w.runId, w.log).value;
            SoundApprovals(st) && forall id | id in st.calls :: 1 <= st.calls[id].sequence
  {
    assert Fold(w.runId, w.log).Some?;
    FoldedIsSound(w);
    ReplayedIsWhole(w.runId, w.log, w.runs);
    ApprovalsAreSound(w.runId, w.log);
    hide Intact, Fold, Replayed;
  }

  /** The session takes the call up. */
  predicate TakesUp(w: World, callId: string, now: int) {
    && w.Open? && callId in w.offers && Resumes(w.live, w.offers[callId])
    && !w.offers[callId].approval.verdict.Pending? && Timed(w.offers[callId].approval)
    && !Overdue(w.offers[callId].approval, now)
  }

  lemma TakesUpIff(w: World, callId: string, now: int, a: Answers)
    requires !TakesUp(w, callId, now)
    ensures Next(w, ResumePending(callId, now, a)) == w
  {
    hide RunTool, Land;
  }

  lemma TakenUpIs(w: World, callId: string, now: int, a: Answers)
    requires TakesUp(w, callId, now)
    ensures var o := w.offers[callId];
            var t := ResumeCall(w.config, w.live, o.call, o.arguments,
                                if o.approval.verdict.Approval? then "approve" else "deny", a);
            Next(w, ResumePending(callId, now, a)) ==
            Open(w.config, t.live, if t.outcome.Finished? then w.offers - {callId} else w.offers, w.locked)
  {
    hide ResumeCall, Resumes;
  }

  /** A denial never lets the call run. */
  lemma DeniedFate(c: Config, a: Answers)
    ensures Fate(c, Some("deny"), a) in {PolicyDenied, AwaitingApproval}
  {
  }

  /** A decided call taken up before its expiry goes through the pipeline with the recorded
      verdict for an answer; one that is pending or has run out is not touched. */
  lemma VerdictIsTheAnswer(runId: string, history: seq<Command>, callId: string, now: int, a: Answers)
    returns (call: SessionToolCall)
    requires BindsOwnRun(runId, a) && TakesUp(After(Unborn(runId), history), callId, now)
    ensures var w := After(Unborn(runId), history);
            var w' := Next(w, ResumePending(callId, now, a));
            var o := w.offers[callId];
            var response := Some(if o.approval.verdict.Approval? then "approve" else "deny");
            var fails := LeftBy(w.config, response, a).Some? || Stalls(w.config, response, a);
            && w'.Open? && SameCall(call, o.call)
            && Lands(w.config, w.live, w'.live, call, response, a, fails,
                     Trail(w.config, runId, o.call, o.arguments, response, a))
            && w'.offers == (if fails then w.offers else w.offers - {callId})
            && (o.approval.verdict.Denial? ==> call.status in {PolicyDenied, AwaitingApproval})
  {
    hide After, Next, Lands, Trail, Fate, LeftBy, Stalls, ResumeCall, Intact, TakesUp, SameCall, FinalOf, Fold, Agreed;
    hide Cleared, Resumes;
    var w := After(Unborn(runId), history);
    HistoryIntact(runId, history);
    OfferStands(w, callId, now);
    var o := w.offers[callId];
    var response := if o.approval.verdict.Approval? then "approve" else "deny";
    TakenUpIs(w, callId, now, a);
    call := ResumeEnds(w.config, w.live, o, response, a);
    LandsInFate(w.config, w.live, Next(w, ResumePending(callId, now, a)).live, call, Some(response), a,
                LeftBy(w.config, Some(response), a).Some? || Stalls(w.config, Some(response), a),
                Trail(w.config, runId, o.call, o.arguments, Some(response), a));
    DeniedFate(w.config, a);
  }

  /** What a call that is taken up is known by. */
  lemma OfferStands(w: World, callId: string, now: int)
    requires Intact(w) && TakesUp(w, callId, now)
    ensures w.Open? && callId in w.offers && Agreed(w.live) && Resumes(w.live, w.offers[callId])
    ensures var o := w.offers[callId];
            && !o.approval.verdict.Pending? && o.call.callId == callId
            && callId in Rebuilt(w.live).value.calls && Rebuilt(w.live).value.calls[callId] == o.call
            && callId in Rebuilt(w.live).value.arguments && Rebuilt(w.live).value.arguments[callId] == o.arguments
            && (o.approval.verdict.Approval? ==> Cleared(Grants(w.live), callId))
  {
    var o := w.offers[callId];
    assert OfferFits(w.live, callId, o);
    hide Agreed, Fold, Cleared, OfferFits, Overdue, Timed;
    OfferKnows(w.live, callId, o);
    if o.approval.verdict.Approval? {
      OfferClears(w.live, callId, o);
    }
  }

  lemma LandsInFate(c: Config, l: Live, m: Live, call: SessionToolCall, response: Option<string>, a: Answers,
                    fails: bool, marks: seq<Mark>)
    requires Lands(c, l, m, call, response, a, fails, marks)
    ensures call.status == Fate(c, response, a)
  {
  }
}
