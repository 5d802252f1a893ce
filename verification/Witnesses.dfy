/** Concrete inputs on which the code does not do what one would expect of it; the exact
    conditions are beside the operations. */
module Witnesses {
  import opened Texts
  import opened Lifecycle
  import opened Entities
  import opened Replay
  import opened Pipeline
  import opened SessionAgreement
  import opened Lifetimes
  import opened Histories

  const RUN := "run_1"
  const CALL := "call_001"
  const TOOL := "deploy"
  const ASK := "apr_1"

  function SessionAs(status: SessionStatus): AgentSession {
    AgentSession(RUN, "alice", "session_1", None, None, status, At(0), At(0))
  }

  function CallAs(status: CallStatus): SessionToolCall {
    SessionToolCall(RUN, "session_1", CALL, 1, TOOL, OfArguments(map[]), None, status, At(0), At(0))
  }

  const PENDING := ApprovalRequest(ASK, RUN, CALL, TOOL, OfArguments(map[]), map[], None, "needs approval", At(0),
                                   Some(At(3600)), Pending)

  // ----- A tool registered again with another policy -----

  const NOW_ALLOWED := Answers(
    Answered(PermissionDecision(Allow, "allowed", None)), Answered(HookDecision(false, None)), Raises, Answered(true),
    Answered(false), Answered(ToolResult(true, None)), Answered(None), Answered([]), Answered(()), ASK, map[])

  /** The approved call of a resumed session, whose tool the policy allows outright by now: a
      lifecycle error, a failed session, and nothing executed. */
  lemma AllowedByNowFailsTheSession(c: Config, log: seq<Event>)
    ensures var l := Live(SessionAs(WaitingApproval), 1, {CALL}, [], false, log, []);
            var t := ResumeCall(c, l, CallAs(AwaitingApproval), map[], "approve", NOW_ALLOWED);
            t.outcome == Raised(true) && t.live.session.status == Failed && t.live.runs == []
  {
    var l := Live(SessionAs(WaitingApproval), 1, {CALL}, [], false, log, []);
    LifecycleErrorIff(c, l, CallAs(AwaitingApproval), map[], "approve", NOW_ALLOWED);
  }

  // ----- A denial with the reserved reason -----

  /** The log of a session that waits for one approval. */
  const WAITING := [
    SessionCreated(SessionAs(Created)),
    SessionStatusChanged(SessionAs(Running)),
    ToolCallRequested(CallAs(Requested)),
    ToolIntent(RUN, CALL, TOOL, map[]),
    ToolCallStatusChanged(CallAs(AwaitingApproval)),
    SessionStatusChanged(SessionAs(WaitingApproval)),
    ApprovalRequested(PENDING)]

  lemma OneMore(log: seq<Event>, n: nat, st: RunState, st': RunState)
    requires n < |log| && Fold(RUN, log[..n]) == Some(st) && Step(RUN, st, log[n]) == Some(st')
    ensures Fold(RUN, log[..n + 1]) == Some(st')
  {
    hide Step;
    FoldSnoc(RUN, log[..n], log[n]);
    assert log[..n + 1] == log[..n] + [log[n]];
  }

  lemma NamesShow()
    ensures !Blank(RUN) && !Blank(CALL) && !Blank(TOOL) && !Blank(ASK)
    ensures !Blank("alice") && !Blank("session_1") && !Blank("needs approval")
  {
    assert RUN[0] == 'r' && CALL[0] == 'c' && TOOL[0] == 'd' && ASK[0] == 'a';
    assert "alice"[0] == 'a' && "session_1"[0] == 's' && "needs approval"[0] == 'n';
  }

  function StateAs(session: SessionStatus, call: CallStatus): RunState {
    RunState(Some(SessionAs(session)), map[CALL := CallAs(call)], map[], map[CALL := map[]], [])
  }

  const WAITS := StateAs(WaitingApproval, AwaitingApproval).(approvals := map[ASK := PENDING])

  lemma RequestReplays()
    ensures Fold(RUN, WAITING[..4]) == Some(StateAs(Running, Requested))
  {
    NamesShow();
    NothingYet(RUN);
    hide Blank, Fold;
    var s0 := NOTHING.(session := Some(SessionAs(Created)));
    var s1 := NOTHING.(session := Some(SessionAs(Running)));
    var s2 := s1.(calls := map[CALL := CallAs(Requested)]);
    assert WAITING[..0] == [];
    OneMore(WAITING, 0, NOTHING, s0);
    OneMore(WAITING, 1, s0, s1);
    OneMore(WAITING, 2, s1, s2);
    OneMore(WAITING, 3, s2, StateAs(Running, Requested));
  }

  lemma CallMoves(session: SessionStatus, before: CallStatus, after: CallStatus)
    requires CallEdge(before, after)
    ensures Step(RUN, StateAs(session, before), ToolCallStatusChanged(CallAs(after))) == Some(StateAs(session, after))
  {
    NamesShow();
    hide Blank, Rank;
    assert StateAs(session, before).calls[CALL := CallAs(after)] == StateAs(session, after).calls;
  }

  lemma SessionMoves(before: SessionStatus, after: SessionStatus, call: CallStatus)
    requires SessionEdge(before, after)
    ensures Step(RUN, StateAs(before, call), SessionStatusChanged(SessionAs(after))) == Some(StateAs(after, call))
  {
    NamesShow();
  }

  lemma ApprovalAsked(session: SessionStatus)
    ensures Step(RUN, StateAs(session, AwaitingApproval), ApprovalRequested(PENDING)) ==
            Some(StateAs(session, AwaitingApproval).(approvals := map[ASK := PENDING]))
  {
    NamesShow();
    hide Blank;
  }

  lemma ThreeMore(log: seq<Event>, s4: RunState, s5: RunState, s6: RunState, s7: RunState)
    requires |log| == 7 && Fold(RUN, log[..4]) == Some(s4)
    requires Step(RUN, s4, log[4]) == Some(s5) && Step(RUN, s5, log[5]) == Some(s6) && Step(RUN, s6, log[6]) == Some(s7)
    ensures Fold(RUN, log) == Some(s7)
  {
    hide Step, Fold;
    OneMore(log, 4, s4, s5);
    OneMore(log, 5, s5, s6);
    OneMore(log, 6, s6, s7);
    assert log[..7] == log;
  }

  lemma WaitingFolds()
    ensures Fold(RUN, WAITING) == Some(WAITS)
  {
    RequestReplays();
    CallMoves(Running, Requested, AwaitingApproval);
    SessionMoves(Running, WaitingApproval, AwaitingApproval);
    ApprovalAsked(WaitingApproval);
    hide Step, Fold, StateAs, CallAs, SessionAs, CallEdge, SessionEdge;
    ThreeMore(WAITING, StateAs(Running, Requested), StateAs(Running, AwaitingApproval),
              StateAs(WaitingApproval, AwaitingApproval), WAITS);
  }

  lemma WaitingReplays()
    ensures Replayed(RUN, WAITING) == Some(WAITS)
  {
    WaitingFolds();
    hide Fold;
  }

  const DENY := DecideApproval(ASK, false, "bob", EXPIRY_REASON, 60, 60)

  /** Denying the waiting approval in time, and giving `approval_expired` as the reason, is
      recorded, and leaves a log that replay rejects. */
  lemma ReservedReasonBreaksReplay()
    ensures var events := Ruling(RUN, WAITING, DENY);
            && events == [ApprovalDecided(PENDING.(verdict := Denial("bob", EXPIRY_REASON, At(60))))]
            && Replayed(RUN, WAITING).Some? && Replayed(RUN, WAITING + events).None?
  {
    WaitingReplays();
    hide Replayed;
    assert "bob"[0] == 'b' && EXPIRY_REASON[0] == 'a';
    var events := Ruling(RUN, WAITING, DENY);
    assert Misruled(WAITING + events);
    MisruledNeverFolds(RUN, WAITING + events);
    RaisesForGood(RUN, WAITING + events, |WAITING + events|);
    assert (WAITING + events)[..|WAITING + events|] == WAITING + events;
  }
}
