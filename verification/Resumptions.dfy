/** Which stored runs have a future: when a run can be resumed at all, and when it is over
    for good. */
module Resumptions {
  import opened Texts
  import opened Lifecycle
  import opened Entities
  import opened Replay
  import opened ReplaySoundness
  import opened Pipeline
  import opened Agreement
  import opened SessionAgreement
  import opened CrashConsistency
  import opened Lifetimes
  import opened LifetimeProofs
  import opened Histories

  // ----- Logs nobody can read -----

  lemma {:induction false} DeadNext(w: World, cmd: Command)
    requires w.Closed? && w.log != [] && Replayed(w.runId, w.log).None?
    ensures Next(w, cmd) == w
    decreases cmd
  {
    hide Replayed, Resumable, Restored, OffersOf;
    assert w.log + [] == w.log;
    if cmd.Meanwhile? {
      DeadNext(w, cmd.during);
      MeanwhileLeaves(w, cmd.during, cmd.at, cmd.decision);
    } else if cmd.Crash? {
      DeadNext(w, cmd.during);
      CrashLeaves(w, cmd.during, cmd.kept, cmd.runsKept);
      assert w.log[..|w.log|] == w.log && w.runs[..|w.runs|] == w.runs;
    }
  }

  /** A log that replay rejects is a run that is over: no history of commands changes it. */
  lemma {:induction false} DeadForGood(w: World, history: seq<Command>)
    requires w.Closed? && w.log != [] && Replayed(w.runId, w.log).None?
    ensures After(w, history) == w
  {
    if history != [] {
      hide Next, Replayed;
      DeadForGood(w, history[..|history| - 1]);
      DeadNext(w, history[|history| - 1]);
    }
  }

  // ----- Runs that can go on -----

  /** Every waiting call has been submitted for approval. */
  predicate AllAsked(st: RunState) {
    forall id | id in Waiting(st.calls) :: Asked(st.approvals, id)
  }

  /** The session waits, for at least one call, and each of its waiting calls was submitted. */
  predicate CanGoOn(st: RunState) {
    st.session.Some? && st.session.value.status == WaitingApproval && Waiting(st.calls) != {} && AllAsked(st)
  }

  predicate Stuck(runId: string, log: seq<Event>) {
    Replayed(runId, log).Some? ==> !CanGoOn(Replayed(runId, log).value)
  }

  predicate CrashFree(history: seq<Command>) {
    forall i | 0 <= i < |history| :: !Crashes(history[i])
  }

  /** Events other than requests leave it open which calls were submitted. */
  lemma {:induction false} NoRequestNoAsk(runId: string, log: seq<Event>, n: nat, id: string)
    requires n <= |log| && Fold(runId, log).Some?
    requires forall i | n <= i < |log| :: !log[i].ApprovalRequested?
    ensures Fold(runId, log[..n]).Some?
    ensures Asked(Fold(runId, log).value.approvals, id) <==> Asked(Fold(runId, log[..n]).value.approvals, id)
    decreases |log|
  {
    hide Asked, Step;
    if n == |log| {
      assert log[..n] == log;
    } else {
      var shorter := log[..|log| - 1];
      NoRequestNoAsk(runId, shorter, n, id);
      assert shorter[..n] == log[..n];
      RequestCounts(runId, Fold(runId, shorter).value, log[|log| - 1], id);
    }
  }

  /** Deciding approvals gets no run unstuck. */
  lemma StaysStuck(runId: string, log: seq<Event>, longer: seq<Event>)
    requires log <= longer && Replayed(runId, log).Some? && Stuck(runId, log)
    requires Fold(runId, longer).Some? ==> SameButApprovals(Fold(runId, longer).value, Fold(runId, log).value)
    requires forall i | |log| <= i < |longer| :: !longer[i].ApprovalRequested?
    ensures Stuck(runId, longer)
  {
    if Replayed(runId, longer).Some? {
      var before, after := Replayed(runId, log).value, Replayed(runId, longer).value;
      forall id
        ensures Asked(after.approvals, id) <==> Asked(before.approvals, id)
      {
        NoRequestNoAsk(runId, longer, |log|, id);
        assert longer[..|log|] == log;
      }
      hide Fold, Asked;
      assert AllAsked(after) <==> AllAsked(before);
    }
  }

  lemma {:induction false} DenyPendingAsksNothing(runId: string, log: seq<Event>,
                                                  approvals: map<string, ApprovalRequest>, order: seq<string>,
                                                  c: Command)
    requires c.Cancel? && forall i | 0 <= i < |order| :: order[i] in approvals
    ensures var longer := DenyPending(runId, log, approvals, order, c).log;
            log <= longer && forall i | |log| <= i < |longer| :: !longer[i].ApprovalRequested?
    decreases |order|
  {
    if order != [] {
      var a := approvals[order[0]];
      if !a.verdict.Pending? {
        DenyPendingAsksNothing(runId, log, approvals, order[1..], c);
      } else {
        var late := Expired(a, At(c.checks(|log|))) == Some(true);
        var at := At(c.clock(|log|));
        var decided := if late then Expire(a, c.actor, at) else Decide(a, Denial(c.actor, "session_cancelled", at));
        if decided.Some? {
          var noted := if late then log + [Noted(runId, "approval_expired")] else log;
          hide DenyPending, Expired, Expire, Decide;
          DenyPendingAsksNothing(runId, noted + [ApprovalDecided(decided.value)], approvals, order[1..], c);
        }
      }
    }
  }

  lemma CancelStaysStuck(runId: string, log: seq<Event>, runs: seq<nat>, c: Command)
    requires Sound(runId, log, runs) && c.Cancel? && Replayed(runId, log).Some? && Stuck(runId, log)
    ensures Stuck(runId, Cancelling(runId, log, c).log)
  {
    CancelSound(runId, log, runs, c);
    var p := Cancelling(runId, log, c);
    hide Sound, Fold;
    if !p.done {
      var st := Replayed(runId, log).value;
      if !SessionOver(st.session.value.status)
         && Orders(c.approvalOrder, st.approvals.Keys) && Orders(c.callOrder, st.calls.Keys) {
        var actor := if c.actor == "" then st.session.value.actorId else c.actor;
        DenyPendingAsksNothing(runId, log, st.approvals, c.approvalOrder, c.(actor := actor));
      }
      hide Cancelling;
      StaysStuck(runId, log, p.log);
    }
  }

  lemma RulingStaysStuck(runId: string, log: seq<Event>, runs: seq<nat>, c: Command)
    requires Sound(runId, log, runs) && c.DecideApproval? && Replayed(runId, log).Some? && Stuck(runId, log)
    ensures Stuck(runId, log + Ruling(runId, log, c))
  {
    RulingSound(runId, log, runs, c);
    RulingIsOwn(runId, log, c);
    hide Sound, Fold, Ruling, Misruled;
    var events := Ruling(runId, log, c);
    var longer := log + events;
    forall i | |log| <= i < |longer|
      ensures !longer[i].ApprovalRequested?
    {
      assert longer[i] in events;
    }
    if Fold(runId, longer).Some? {
      StaysStuck(runId, log, longer);
    }
  }

  lemma {:induction false} StuckNext(w: World, cmd: Command)
    requires Intact(w) && w.Closed? && w.log != [] && Stuck(w.runId, w.log) && !Crashes(cmd)
    ensures var w' := Next(w, cmd); w'.Closed? && w'.runId == w.runId && w'.log != [] && Stuck(w'.runId, w'.log)
    decreases cmd
  {
    if Replayed(w.runId, w.log).None? {
      DeadNext(w, cmd);
    } else {
      FoldedIsSound(w);
      hide Sound, Fold, Intact, Ruling, Cancelling, Stuck;
      match cmd
      case DecideApproval(_, _, _, _, _, _) =>
        RulingStaysStuck(w.runId, w.log, w.runs, cmd);
      case Cancel(_, _, _, _, _) =>
        CancelSound(w.runId, w.log, w.runs, cmd);
        CancelStaysStuck(w.runId, w.log, w.runs, cmd);
      case Resume(config, callId, now) =>
        NotResumable(w.runId, w.log, callId, now);
      case Meanwhile(during, at, decision) =>
        StuckNext(w, during);
        MeanwhileLeaves(w, during, at, decision);
      case _ =>
    }
  }

  lemma NotResumable(runId: string, log: seq<Event>, callId: string, now: int)
    requires Replayed(runId, log).Some? && Stuck(runId, log)
    ensures !Resumable(Replayed(runId, log).value, callId, now)
  {
    hide Replayed, Asked;
  }

  lemma {:induction false} StuckForGood(w: World, history: seq<Command>)
    requires Intact(w) && w.Closed? && w.log != [] && Stuck(w.runId, w.log) && CrashFree(history)
    ensures var v := After(w, history);
            Intact(v) && v.Closed? && v.runId == w.runId && v.log != [] && Stuck(v.runId, v.log)
  {
    if history != [] {
      var n := |history| - 1;
      hide Next, Stuck, Intact;
      StuckForGood(w, history[..n]);
      NextIntact(After(w, history[..n]), history[n]);
      StuckNext(After(w, history[..n]), history[n]);
    }
  }

  // ----- How a run goes on -----

  predicate Parses(a: ApprovalRequest) { a.expiresAt.Some? ==> a.expiresAt.value.At? }

  predicate ExpiriesParse(approvals: map<string, ApprovalRequest>) {
    forall k | k in approvals :: Parses(approvals[k])
  }

  lemma {:induction false} ExpiriesAlwaysParse(runId: string, log: seq<Event>)
    requires Fold(runId, log).Some?
    ensures ExpiriesParse(Fold(runId, log).value.approvals)
  {
    if log != [] {
      ExpiriesAlwaysParse(runId, log[..|log| - 1]);
      var st, e := Fold(runId, log[..|log| - 1]).value, log[|log| - 1];
      ApprovalEffect(runId, st, e);
      hide Step, ApplyApproval, Blank, VerdictText;
      if e.ApprovalDecided? {
        ApprovalMovesOn(st.approvals[e.approval.approvalId], e.approval);
      }
    }
  }

  /** A time at which an approval has not expired. */
  function InTime(a: ApprovalRequest): int {
    if a.expiresAt.Some? && a.expiresAt.value.At? then a.expiresAt.value.instant - 1 else 0
  }

  lemma InTimeIsNotExpired(a: ApprovalRequest)
    requires Parses(a)
    ensures Expired(a, At(InTime(a))) == Some(false)
  {
  }

  const APPROVER := "operator"
  const REASON := "approved"

  function Approve(a: ApprovalRequest): Command {
    DecideApproval(a.approvalId, true, APPROVER, REASON, InTime(a), InTime(a))
  }

  function WithGrant(a: ApprovalRequest): ApprovalRequest {
    a.(verdict := Approval(APPROVER, REASON, At(InTime(a))))
  }

  lemma ApprovingIsRecorded(runId: string, log: seq<Event>, a: ApprovalRequest)
    requires Replayed(runId, log).Some? && a.verdict.Pending? && Parses(a)
    requires a.approvalId in Replayed(runId, log).value.approvals
    requires Replayed(runId, log).value.approvals[a.approvalId] == a
    ensures Ruling(runId, log, Approve(a)) == [ApprovalDecided(WithGrant(a))]
  {
    hide Replayed;
    InTimeIsNotExpired(a);
    assert !IsSpace(APPROVER[0]) && !IsSpace(REASON[0]);
  }

  /** Approving a pending request changes that approval alone, and the log stays replayable. */
  lemma ApprovingReplays(runId: string, log: seq<Event>, runs: seq<nat>, a: ApprovalRequest)
    requires Sound(runId, log, runs) && Replayed(runId, log).Some? && a.verdict.Pending? && Parses(a)
    requires a.approvalId in Replayed(runId, log).value.approvals
    requires Replayed(runId, log).value.approvals[a.approvalId] == a
    ensures var st := Replayed(runId, log).value;
            Replayed(runId, log + Ruling(runId, log, Approve(a))) ==
            Some(st.(approvals := st.approvals[a.approvalId := WithGrant(a)]))
  {
    ApprovingIsRecorded(runId, log, a);
    ReplayedIsWhole(runId, log, runs);
    InTimeIsNotExpired(a);
    assert !IsSpace(APPROVER[0]) && !IsSpace(REASON[0]);
    hide Sound, Fold, EndsInRequest, Ruling;
    DecisionSound(runId, log, runs, a, WithGrant(a).verdict, false);
    var st := Replayed(runId, log).value;
    var st' := st.(approvals := st.approvals[a.approvalId := WithGrant(a)]);
    assert Fold(runId, log + [ApprovalDecided(WithGrant(a))]) == Some(st');
    forall id | id in st'.calls
      ensures Backed(st', id)
    {
      assert Backed(st, id);
    }
  }

  lemma StillAllAsked(st: RunState, a: ApprovalRequest)
    requires AllAsked(st) && a.approvalId in st.approvals && st.approvals[a.approvalId] == a
    ensures AllAsked(st.(approvals := st.approvals[a.approvalId := WithGrant(a)]))
  {
    var st' := st.(approvals := st.approvals[a.approvalId := WithGrant(a)]);
    forall id | id in Waiting(st'.calls)
      ensures Asked(st'.approvals, id)
    {
      var k :| k in st.approvals && st.approvals[k].callId == id;
      assert st'.approvals[k].callId == id;
    }
  }

  /** A decided request of a run that can go on can be resumed while it has not expired. */
  lemma DecidedResumes(runId: string, log: seq<Event>, a: ApprovalRequest)
    requires Replayed(runId, log).Some? && CanGoOn(Replayed(runId, log).value)
    requires Parses(a) && !a.verdict.Pending?
    requires a.approvalId in Replayed(runId, log).value.approvals
    requires Replayed(runId, log).value.approvals[a.approvalId] == a
    requires a.callId in Waiting(Replayed(runId, log).value.calls)
    ensures Resumable(Replayed(runId, log).value, a.callId, InTime(a))
  {
    var st := Replayed(runId, log).value;
    ApprovalsAreSound(runId, log);
    OnlyApproval(st, a.approvalId);
    InTimeIsNotExpired(a);
    hide Replayed, Fold, SoundApprovals;
  }

  /** The commands by which a run goes on: its request is approved, unless it is decided, and
      then resumed. */
  function GoingOn(config: Config, a: ApprovalRequest): seq<Command> {
    (if a.verdict.Pending? then [Approve(a)] else []) + [Resume(config, a.callId, InTime(a))]
  }

  /** A waiting call of a stored run that can go on, with its approval. */
  predicate Offered(w: World, a: ApprovalRequest) {
    && w.Closed? && Replayed(w.runId, w.log).Some?
    && var st := Replayed(w.runId, w.log).value;
       && CanGoOn(st) && Parses(a) && a.callId in Waiting(st.calls)
       && a.approvalId in st.approvals && st.approvals[a.approvalId] == a
  }

  lemma DecidedGoesOn(w: World, config: Config, a: ApprovalRequest)
    requires Offered(w, a) && !a.verdict.Pending?
    ensures Next(w, Resume(config, a.callId, InTime(a))).Open?
  {
    hide Replayed, CanGoOn, Parses, Next;
    DecidedResumes(w.runId, w.log, a);
    ResumeOpens(w, config, a.callId, InTime(a));
  }

  lemma StillGoesOn(st: RunState, a: ApprovalRequest)
    requires CanGoOn(st) && a.approvalId in st.approvals && st.approvals[a.approvalId] == a
    ensures CanGoOn(st.(approvals := st.approvals[a.approvalId := WithGrant(a)]))
  {
    StillAllAsked(st, a);
    hide AllAsked;
  }

  lemma PendingIsGranted(w: World, a: ApprovalRequest)
    requires Offered(w, a) && a.verdict.Pending? && Sound(w.runId, w.log, w.runs)
    ensures Offered(Next(w, Approve(a)), WithGrant(a))
  {
    hide Replayed, Sound, Parses, CanGoOn, Next, Ruling, Waiting;
    var st := Replayed(w.runId, w.log).value;
    DecidingAppends(w, Approve(a));
    ApprovingReplays(w.runId, w.log, w.runs, a);
    StillGoesOn(st, a);
    GrantedParses(a);
  }

  lemma GoesOn(w: World, config: Config, a: ApprovalRequest)
    requires Offered(w, a) && Sound(w.runId, w.log, w.runs)
    ensures After(w, GoingOn(config, a)).Open?
  {
    hide Offered, Next, Sound, After;
    if a.verdict.Pending? {
      PendingIsGranted(w, a);
      GrantedParses(a);
      DecidedGoesOn(Next(w, Approve(a)), config, WithGrant(a));
      TwoCommands(w, Approve(a), Resume(config, a.callId, InTime(a)));
    } else {
      DecidedGoesOn(w, config, a);
      OneCommand(w, Resume(config, a.callId, InTime(a)));
      assert GoingOn(config, a) == [Resume(config, a.callId, InTime(a))];
    }
  }

  lemma GrantedParses(a: ApprovalRequest)
    ensures Parses(WithGrant(a)) == Parses(a) && InTime(WithGrant(a)) == InTime(a)
  {
  }

  lemma ResumeOpens(w: World, config: Config, callId: string, now: int)
    requires w.Closed? && Replayed(w.runId, w.log).Some? && Resumable(Replayed(w.runId, w.log).value, callId, now)
    ensures Next(w, Resume(config, callId, now)).Open?
  {
    hide Replayed, Resumable, Restored, OffersOf;
  }

  lemma OneCommand(w: World, cmd: Command)
    ensures After(w, [cmd]) == Next(w, cmd)
  {
    hide Next;
    assert [cmd][..0] == [];
  }

  lemma TwoCommands(w: World, first: Command, second: Command)
    ensures After(w, [first] + [second]) == Next(Next(w, first), second)
  {
    hide Next;
    OneCommand(w, first);
    assert ([first] + [second])[..1] == [first];
  }

  lemma SomeOffer(w: World) returns (a: ApprovalRequest)
    requires w.Closed? && Replayed(w.runId, w.log).Some? && CanGoOn(Replayed(w.runId, w.log).value)
    ensures Offered(w, a)
  {
    var st := Replayed(w.runId, w.log).value;
    OwnState(w.runId, w.log);
    ExpiriesAlwaysParse(w.runId, w.log);
    hide Fold, Readable, AllBacked, Parses;
    var id :| id in Waiting(st.calls);
    assert Asked(st.approvals, id);
    var k :| k in st.approvals && st.approvals[k].callId == id;
    a := st.approvals[k];
  }

  /** Exactly which stored runs have a future: short of a crash, a run whose log replays is
      resumed by some history of commands if and only if its session waits, for at least one
      call, and every waiting call was submitted for approval. A crash between a call's start
      to wait and its request, or a request that cannot be created, is thus the end of it. */
  lemma CanBeResumedIff(runId: string, history: seq<Command>, config: Config)
    requires After(Unborn(runId), history).Closed?
    requires Replayed(runId, LogOf(After(Unborn(runId), history))).Some?
    ensures var w := After(Unborn(runId), history);
            (exists more :: CrashFree(more) && After(w, more).Open?) <==> CanGoOn(Replayed(runId, w.log).value)
  {
    HistoryIntact(runId, history);
    hide After, Intact, Replayed, CanGoOn, CrashFree;
    HasAFutureIff(After(Unborn(runId), history), config);
  }

  lemma HasAFutureIff(w: World, config: Config)
    requires Intact(w) && w.Closed? && Replayed(w.runId, w.log).Some?
    ensures (exists more :: CrashFree(more) && After(w, more).Open?) <==> CanGoOn(Replayed(w.runId, w.log).value)
  {
    hide After, Intact, Sound, CanGoOn, Offered, Step, Readable, AllBacked;
    if CanGoOn(Replayed(w.runId, w.log).value) {
      FoldedIsSound(w);
      var a := SomeOffer(w);
      GoesOn(w, config, a);
      assert CrashFree(GoingOn(config, a));
    } else {
      assert w.log != [] && Stuck(w.runId, w.log);
      hide Stuck, Replayed, CrashFree;
      forall more | CrashFree(more)
        ensures After(w, more).Closed?
      {
        StuckForGood(w, more);
      }
    }
  }

  // ----- How a run gets stuck -----

  lemma DeferredAsks(c: Config, f: Flight, arguments: Arguments, a: Answers)
    requires c.approvalMode == Deferred && f.call.status == Requested
    requires a.decision.Answered? && a.decision.value.effect == Ask && a.hook.Answered? && !a.hook.value.denies
    ensures RunTool(c, f, arguments, None, a).ending == Returned(Ask, a.decision.value, [])
  {
    hide Reconcile;
  }

  lemma UnsubmittedWaits(c: Config, l: Live, toolName: string, arguments: Arguments, a: Answers)
    requires Accepting(l) && !Blank(toolName)
    requires a.decision.Answered? && Blank(a.decision.value.reason)
    requires Launch(c, l, toolName, arguments, a).ending == Returned(Ask, a.decision.value, [])
    ensures var t := Execute(c, l, toolName, arguments, a);
            && t.outcome == Raised(false)
            && t.live == Credited(Launch(c, l, toolName, arguments, a)).live
  {
    hide Launch;
  }

  /** A decision to ask without a reason: the call waits, its request cannot be created, and
      so, by CanBeResumedIff, nobody resumes the session once its process is gone. */
  lemma BlankReasonStrands(c: Config, l: Live, toolName: string, arguments: Arguments, a: Answers)
    requires Agreed(l) && Accepting(l) && !Blank(toolName) && a.approvalId !in Grants(l)
    requires c.approvalMode == Deferred && a.hook.Answered? && !a.hook.value.denies
    requires a.decision.Answered? && a.decision.value.effect == Ask && Blank(a.decision.value.reason)
    ensures var t := Execute(c, l, toolName, arguments, a);
            && t.outcome == Raised(false) && t.live.session.status == WaitingApproval
            && Rebuilt(t.live).Some? && !CanGoOn(Rebuilt(t.live).value)
  {
    hide Agreed, Fold, InFlight, Carries, Onward, RunTool, Execute, CanGoOn, Asked, Cleared;
    var l0 := l.(sequence := l.sequence + 1);
    var call := NewCall(c, l0, toolName, arguments);
    DeferredAsks(c, Flight(Emit(l0, ToolCallRequested(call)), call), arguments, a);
    UnsubmittedWaits(c, l, toolName, arguments, a);
    OpenedInFlight(c, l, toolName, arguments);
    LaunchKeeps(c, l, toolName, arguments, a);
    var f := Opened(c, l, toolName, arguments);
    var g := Credited(Launch(c, l, toolName, arguments, a));
    AgreedKnows(l);
    FreshIsCleared(l, f.call.callId);
    FlightFacts(f, g);
    NeverAsked(l, f, g);
  }

  lemma NeverAsked(l: Live, f: Flight, g: Flight)
    requires Onward(f, g) && Grants(f.live) == Grants(l) && !Asked(Grants(l), f.call.callId)
    requires g.call.status == AwaitingApproval
    ensures Rebuilt(g.live).Some? && !CanGoOn(Rebuilt(g.live).value) && g.live.session.status == WaitingApproval
  {
    FlightFacts(f, g);
    AgreedKnows(g.live);
    hide Agreed, Fold, Asked;
    assert g.call.callId in Waiting(Rebuilt(g.live).value.calls);
  }
}
