/** How a session begins and ends, and what becomes of one whose answer was sent back. */
module FinalAnswers {
  import opened Texts
  import opened Lifecycle
  import opened Entities
  import opened Replay
  import opened Pipeline
  import opened Agreement
  import opened SessionAgreement
  import opened Lifetimes
  import opened LifetimeProofs
  import opened Histories
  import opened ExecutionGate

  // ----- Ending -----

  lemma CloseStatus(c: Config, l: Live)
    ensures Close(c, l).session.status == Completed <==>
              l.session.status == Completed || (l.session.status == Running && !l.blocked)
    ensures Close(c, l).session.status != Completed ==> Close(c, l) == l
  {
  }

  lemma TimeOutStatus(c: Config, l: Live)
    requires l.session.status != Created
    ensures TimeOut(c, l).session.status == if SessionOver(l.session.status) then l.session.status else Failed
  {
  }

  /** The status in which a session is left, by how it is left. */
  function StatusLeft(status: SessionStatus, sentBack: bool, raised: bool, timedOut: bool): SessionStatus {
    if SessionOver(status) || (raised && status == WaitingApproval) then status
    else if raised || timedOut then Failed
    else if status == Running && !sentBack then Completed
    else status
  }

  lemma LeaveStatus(c: Config, l: Live, raised: bool, timedOut: bool)
    requires l.session.status != Created
    ensures var left := Leave(c, l, raised, timedOut);
            && left.session.status == StatusLeft(l.session.status, l.blocked, raised, timedOut)
            && (SessionOver(left.session.status) ==>
                  left.log != [] && left.log[|left.log| - 1] == Noted(left.session.runId, "run_completed"))
  {
    TimeOutStatus(c, l);
    CloseStatus(c, l);
    hide TimeOut, Close;
  }

  /** What an answer leaves in the log: that it was submitted and checked, and the end of the
      session where it is verified or may pass. */
  lemma AnswerLeaves(c: Config, l: Live, verified: bool)
    ensures AnswerFinally(c, l, verified).Some? <==> l.session.status == Running
    ensures AnswerFinally(c, l, verified).Some? ==>
              var m := AnswerFinally(c, l, verified).value;
              var completes := verified || c.finalAnswerMode == Warn;
              && m.session.status == (if completes then Completed else Running)
              && m.blocked == !completes && m.pending == l.pending && m.facts == l.facts
              && m.log == l.log + [Noted(l.session.runId, "final_answer_submitted"),
                                   Noted(l.session.runId, "groundguard_check")]
                          + (if completes then [SessionStatusChanged(m.session),
                                                Noted(l.session.runId, "session_completed")] else [])
  {
  }

  // ----- The gate, over a history -----

  /** The answer a command submits. */
  function AnswerIn(cmd: Command): Option<bool>
    decreases cmd
  {
    match cmd
    case SubmitAnswer(verified) => Some(verified)
    case Meanwhile(during, _, _) => AnswerIn(during)
    case _ => None
  }

  /** The last answer recorded by the session object in hand was not verified, in a mode that
      does not let that pass. */
  ghost function SentBack(runId: string, history: seq<Command>): bool {
    if history == [] then false
    else
      var n := |history| - 1;
      var w, answer := After(Unborn(runId), history[..n]), AnswerIn(history[n]);
      if w.Closed? then false
      else if answer.Some? && w.live.session.status == Running then
        !answer.value && w.config.finalAnswerMode != Warn
      else SentBack(runId, history[..n])
  }

  lemma CarriedBlock(f: Flight, g: Flight)
    requires Onward(f, g)
    ensures g.live.blocked == f.live.blocked
  {
    hide Agreed, Fold;
  }

  lemma LandBlock(c: Config, r: Ran)
    ensures Land(c, r).live.blocked == Credited(r).live.blocked
  {
  }

  lemma ExecuteBlock(c: Config, l: Live, toolName: string, arguments: Arguments, a: Answers)
    requires Agreed(l)
    ensures Execute(c, l, toolName, arguments, a).live.blocked == l.blocked
  {
    hide Agreed, Fold, Launch, Land, NewApproval, Credited, Onward, Opened, Blank;
    if Accepting(l) && !Blank(toolName) {
      OpenedBlock(c, l, toolName, arguments);
      LaunchKeeps(c, l, toolName, arguments, a);
      CarriedBlock(Opened(c, l, toolName, arguments), Credited(Launch(c, l, toolName, arguments, a)));
      LandBlock(c, Launch(c, l, toolName, arguments, a));
    }
  }

  lemma OpenedBlock(c: Config, l: Live, toolName: string, arguments: Arguments)
    ensures Opened(c, l, toolName, arguments).live.blocked == l.blocked
  {
  }

  lemma ResumeBlock(w: World, callId: string, now: int, a: Answers)
    requires Intact(w) && w.Open?
    ensures var w' := Next(w, ResumePending(callId, now, a));
            w'.Open? && w'.live.blocked == w.live.blocked && w'.config == w.config
  {
    hide Agreed, Fold, RunTool, Land, Granted, Cleared, Credited, Onward, Rebuilt, OfferFits;
    if callId in w.offers && Actionable(w.offers[callId].approval, now) && Resumes(w.live, w.offers[callId]) {
      var o := w.offers[callId];
      var response := if o.approval.verdict.Approval? then "approve" else "deny";
      assert OfferFits(w.live, callId, o);
      OfferKnows(w.live, callId, o);
      if o.approval.verdict.Approval? {
        OfferClears(w.live, callId, o);
      }
      ResumedInFlight(w.live, o.call, o.arguments);
      var f := Flight(w.live, o.call);
      RunToolKeeps(w.config, f, o.arguments, Some(response), a);
      CarriedBlock(WithIntent(f, o.arguments), Credited(RunTool(w.config, f, o.arguments, Some(response), a)));
      LandBlock(w.config, RunTool(w.config, f, o.arguments, Some(response), a));
    }
  }

  /** What a command makes of the memory of a session object. */
  lemma {:induction false} NextBlock(w: World, cmd: Command)
    requires Intact(w)
    ensures var w' := Next(w, cmd);
            w'.Open? ==>
              w'.live.blocked == if w.Closed? then false
                                 else if AnswerIn(cmd).Some? && w.live.session.status == Running then
                                   !AnswerIn(cmd).value && w.config.finalAnswerMode != Warn
                                 else w.live.blocked
    decreases cmd
  {
    hide Execute, Intact, Grants, ResumeCall, Replayed, Ruling, Misruled, Cancelling, Resumable, OffersOf, Leave;
    hide ValidSession, LastSequence, Interleaves, CutsThrough, Actionable, TimeOut, Start;
    match cmd
    case Begin(config, session) =>
      BeginsIff(w, config, session);
    case Call(toolName, arguments, a) =>
      if w.Open? {
        AgreedOpen(w);
        ExecuteBlock(w.config, w.live, toolName, arguments, a);
      }
    case ResumePending(callId, now, a) =>
      if w.Open? {
        ResumeBlock(w, callId, now, a);
      }
    case Meanwhile(during, at, decision) =>
      NextBlock(w, during);
      MeanwhileLeaves(w, during, at, decision);
    case Crash(during, kept, runsKept) =>
      CrashLeaves(w, during, kept, runsKept);
    case TimeUp =>
      if w.Open? {
        TimeOutBlock(w.config, w.live);
      }
    case _ =>
  }

  lemma TimeOutBlock(c: Config, l: Live)
    ensures TimeOut(c, l).blocked == l.blocked
  {
  }

  lemma AgreedOpen(w: World)
    requires Intact(w) && w.Open?
    ensures Agreed(w.live)
  {
    hide Agreed;
  }

  lemma {:induction false} BlockedIsSentBack(runId: string, history: seq<Command>)
    ensures After(Unborn(runId), history).Open? ==>
              After(Unborn(runId), history).live.blocked == SentBack(runId, history)
  {
    if history != [] {
      var n := |history| - 1;
      HistoryIntact(runId, history[..n]);
      hide Intact, Next;
      BlockedIsSentBack(runId, history[..n]);
      NextBlock(After(Unborn(runId), history[..n]), history[n]);
    }
  }

  /** The final-answer gate: how a session is left, over every history, the status replayed from
      its log. One whose last answer was sent back is not completed by leaving it. */
  lemma LeavingEnds(runId: string, history: seq<Command>, raised: bool, timedOut: bool)
    requires After(Unborn(runId), history).Open?
    ensures var w := After(Unborn(runId), history);
            var w' := Next(w, Exit(raised, timedOut));
            && w'.Closed? && Fold(runId, w'.log).Some? && Fold(runId, w'.log).value.session.Some?
            && Fold(runId, w'.log).value.session.value.status ==
               StatusLeft(w.live.session.status, SentBack(runId, history), raised, timedOut)
  {
    var w := After(Unborn(runId), history);
    HistoryIntact(runId, history);
    BlockedIsSentBack(runId, history);
    hide After, SentBack, Agreed, Leave, Intact, Fold, StatusLeft, Next, CallsKept, Waiting;
    AgreedOpen(w);
    NotYetCreated(w.live);
    ExitAndResume(w, raised, timedOut, w.config, "", 0);
    LeaveStatus(w.config, w.live, raised, timedOut);
    LeaveKeeps(w.config, w.live, raised, timedOut);
    AgreedKnows(Leave(w.config, w.live, raised, timedOut));
  }

  // ----- Beginning -----

  /** Exactly when a run begins, and how its session stands then. */
  lemma BeginsIff(w: World, config: Config, session: AgentSession)
    ensures var w' := Next(w, Begin(config, session));
            if w == Unborn(session.runId) && ValidSession(session) && session.status == Created then
              && w'.Open? && w'.config == config && w'.offers == map[] && !w'.locked
              && SameSession(w'.live.session, session) && w'.live.session.status == Running
              && w'.live.pending == {} && w'.live.facts == [] && w'.live.sequence == 0 && !w'.live.blocked
              && w'.live.runs == []
              && w'.live.log == [Noted(session.runId, "policy_snapshot"), Noted(session.runId, "run_started"),
                                 SessionCreated(session), SessionStatusChanged(w'.live.session)]
            else w' == w
  {
    hide ValidSession;
  }
}
