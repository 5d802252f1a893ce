/** The session object and the call pipeline as they run: fields updated in place, events
    appended to the shared evidence, ports asked one after the other. */
module GovernedSessions {
  import opened Texts
  import opened Lifecycle
  import opened Entities
  import Pipeline
  import opened Agreement
  import opened SessionAgreement

  /** The recorder of one run, with the executor runs so far (see Pipeline.Live). */
  class Evidence {
    var events: seq<Event>
    ghost var runs: seq<nat>

    constructor (events: seq<Event>, ghost runs: seq<nat>)
      ensures this.events == events && this.runs == runs
    {
      this.events := events;
      this.runs := runs;
    }

    method Append(e: Event)
      modifies this`events
      ensures events == old(events) + [e]
    {
      events := events + [e];
    }
  }

  class GovernedSession {
    const config: Pipeline.Config
    const evidence: Evidence
    const toolRunner: RunToolUseCase
    var session: AgentSession
    var sequence: nat
    var pendingToolCallIds: set<string>
    var started: bool
    var activeToolCall: Option<SessionToolCall>
    var facts: seq<Fact>
    var completionBlocked: bool

    constructor (config: Pipeline.Config, evidence: Evidence, session: AgentSession, initialSequence: nat,
                 pendingToolCallIds: set<string>, started: bool, initialFacts: seq<Fact>)
      ensures this.config == config && this.evidence == evidence && this.started == started
      ensures activeToolCall.None?
      ensures Snapshot() == Pipeline.Live(session, initialSequence, pendingToolCallIds, initialFacts, false,
                                          evidence.events, evidence.runs)
      ensures fresh(toolRunner)
    {
      this.config := config;
      this.evidence := evidence;
      this.toolRunner := new RunToolUseCase();
      this.session := session;
      this.sequence := initialSequence;
      this.pendingToolCallIds := pendingToolCallIds;
      this.started := started;
      this.activeToolCall := None;
      this.facts := initialFacts;
      this.completionBlocked := false;
    }

    ghost function Snapshot(): Pipeline.Live
      reads this, evidence
    {
      Pipeline.Live(session, sequence, pendingToolCallIds, facts, completionBlocked, evidence.events, evidence.runs)
    }

    ghost function Airborne(): Pipeline.Flight
      requires activeToolCall.Some?
      reads this, evidence
    {
      Pipeline.Flight(Snapshot(), activeToolCall.value)
    }

    function Now(): Stamp
      reads this, evidence
    {
      At(config.clock(|evidence.events|))
    }

    method Note(kind: string)
      modifies evidence`events
      ensures Snapshot() == Pipeline.Note(old(Snapshot()), kind)
    {
      evidence.Append(Noted(session.runId, kind));
    }

    method TransitionSession(status: SessionStatus)
      requires SessionEdge(session.status, status)
      modifies this`session, evidence`events
      ensures Snapshot() == Pipeline.TransitionSession(config, old(Snapshot()), status)
    {
      session := session.(status := status, updatedAt := Now());
      evidence.Append(SessionStatusChanged(session));
      if status == Completed {
        Note("session_completed");
      }
    }

    method ReconcileApprovalWaitingStatus()
      modifies this`session, evidence`events
      ensures Snapshot() == Pipeline.Reconcile(config, old(Snapshot()))
    {
      if SessionOver(session.status) {
        return;
      }
      if pendingToolCallIds != {} && session.status == Running {
        TransitionSession(WaitingApproval);
      } else if pendingToolCallIds == {} && session.status == WaitingApproval {
        TransitionSession(Running);
      }
    }

    /** ok is false where the lifecycle error is raised; nothing has changed then. */
    method RecordToolStatus(status: CallStatus) returns (ok: bool)
      requires activeToolCall.Some?
      modifies this`session, this`activeToolCall, this`pendingToolCallIds, evidence`events
      ensures activeToolCall.Some?
      ensures var next := Pipeline.RecordStatus(config, old(Airborne()), status);
              if ok then next == Some(Airborne()) else next.None? && Airborne() == old(Airborne())
    {
      if !CallEdge(activeToolCall.value.status, status) {
        return false;
      }
      var call := activeToolCall.value.(status := status, updatedAt := Now());
      activeToolCall := Some(call);
      evidence.Append(ToolCallStatusChanged(call));
      if status == AwaitingApproval {
        pendingToolCallIds := pendingToolCallIds + {call.callId};
      } else {
        pendingToolCallIds := pendingToolCallIds - {call.callId};
      }
      ReconcileApprovalWaitingStatus();
      return true;
    }

    // ----- The operations -----

    method Start()
      requires !started && session.status == Created
      modifies this`session, this`started, evidence`events
      ensures started && Snapshot() == Pipeline.Start(config, old(Snapshot()))
    {
      evidence.Append(SessionCreated(session));
      started := true;
      TransitionSession(Running);
    }

    method FailSession()
      modifies this`session, evidence`events
      ensures Snapshot() == Pipeline.FailSession(config, old(Snapshot()))
    {
      if SessionEdge(session.status, Failed) {
        TransitionSession(Failed);
      }
    }

    /** `execute`: the call under the operation lock. */
    method Execute(toolName: string, arguments: Arguments, a: Pipeline.Answers) returns (outcome: Pipeline.Outcome)
      requires started && activeToolCall.None?
      modifies this, evidence
      ensures started && activeToolCall.None?
      ensures Pipeline.Turn(Snapshot(), outcome) == Pipeline.Execute(config, old(Snapshot()), toolName, arguments, a)
      ensures old(Agreed(Snapshot()) && a.approvalId !in Grants(Snapshot())) ==>
                Agreed(Snapshot()) && (outcome.Raised? ==> !outcome.lifecycle)
    {
      ghost var before := Snapshot();
      hide Agreed, Grants, Quiet, CallsKept, Pipeline.Execute;
      outcome := ExecuteLocked(toolName, arguments, a);
      if Agreed(before) && a.approvalId !in Grants(before) {
        ExecuteKeeps(config, before, toolName, arguments, a);
      }
    }

    method ExecuteLocked(toolName: string, arguments: Arguments, a: Pipeline.Answers)
      returns (outcome: Pipeline.Outcome)
      requires started && activeToolCall.None?
      modifies this, evidence
      ensures started && activeToolCall.None?
      ensures Pipeline.Turn(Snapshot(), outcome) == Pipeline.Execute(config, old(Snapshot()), toolName, arguments, a)
    {
      hide Pipeline.RunTool, Pipeline.FailSession, Pipeline.NewApproval, CallId, Blank;
      if session.status !in {Running, WaitingApproval} {
        return Pipeline.Refused;
      }
      sequence := sequence + 1;
      if Blank(toolName) {
        return Pipeline.Refused;
      }
      var call := SessionToolCall(session.runId, session.sessionId, CallId(sequence), sequence, toolName,
                                  OfArguments(arguments), None, Requested, Now(), Now());
      activeToolCall := Some(call);
      evidence.Append(ToolCallRequested(call));
      var ending := toolRunner.Execute(this, arguments, None, a);
      var completed := activeToolCall.value;
      activeToolCall := None;
      if !ending.Returned? {
        FailSession();
        return Pipeline.Raised(ending.LifecycleRaised?);
      }
      facts := facts + ending.facts;
      if ending.final != Pipeline.Ask {
        return Pipeline.Finished(completed, ending.final, None);
      }
      var request := CreateApproval(completed, ending.decision, a);
      if request.None? {
        return Pipeline.Raised(false);
      }
      evidence.Append(ApprovalRequested(request.value));
      return Pipeline.Finished(completed, ending.final, request);
    }

    method CreateApproval(call: SessionToolCall, decision: Pipeline.PermissionDecision, a: Pipeline.Answers)
      returns (request: Option<ApprovalRequest>)
      ensures request == Pipeline.NewApproval(config, Snapshot(), call, decision, a)
    {
      if config.ttlSeconds.Some? && config.ttlSeconds.value <= 0 {
        return None;
      }
      var requestedAt := config.clock(|evidence.events|);
      var expiresAt: Option<Stamp> := None;
      if config.ttlSeconds.Some? {
        expiresAt := Some(At(requestedAt + config.ttlSeconds.value));
      }
      var created := ApprovalRequest(a.approvalId, session.runId, call.callId, call.toolName, call.digest, a.preview,
                                     decision.ruleId, decision.reason, At(requestedAt), expiresAt, Pending);
      return if ValidApproval(created) then Some(created) else None;
    }

    method ResumeToolCall(call: SessionToolCall, arguments: Arguments, response: string, a: Pipeline.Answers)
      returns (outcome: Pipeline.Outcome)
      requires started && activeToolCall.None?
      modifies this, evidence
      ensures started && activeToolCall.None?
      ensures Pipeline.Turn(Snapshot(), outcome) ==
              Pipeline.ResumeCall(config, old(Snapshot()), call, arguments, response, a)
    {
      if session.status != WaitingApproval || call.status != AwaitingApproval
         || response !in {"approve", "deny"} || OfArguments(arguments) != call.digest {
        return Pipeline.Refused;
      }
      activeToolCall := Some(call);
      var ending := toolRunner.Execute(this, arguments, Some(response), a);
      var completed := activeToolCall.value;
      activeToolCall := None;
      if !ending.Returned? {
        FailSession();
        return Pipeline.Raised(ending.LifecycleRaised?);
      }
      facts := facts + ending.facts;
      return Pipeline.Finished(completed, ending.final, None);
    }

    method Close()
      requires started
      modifies this`session, evidence`events
      ensures Snapshot() == Pipeline.Close(config, old(Snapshot()))
    {
      if session.status == Running && !completionBlocked {
        TransitionSession(Completed);
      }
    }

    method TimeOut()
      requires started
      modifies this`session, evidence`events
      ensures Snapshot() == Pipeline.TimeOut(config, old(Snapshot()))
    {
      if !SessionOver(session.status) {
        Note("session_timed_out");
        FailSession();
      }
    }

    /** recorded is false where the session is not running. */
    method RecordFinalAnswer(verified: bool) returns (recorded: bool, completed: bool)
      requires started
      modifies this`session, this`completionBlocked, evidence`events
      ensures var next := Pipeline.AnswerFinally(config, old(Snapshot()), verified);
              if recorded then next == Some(Snapshot()) else next.None? && Snapshot() == old(Snapshot())
      ensures completed <==> recorded && session.status == Completed
    {
      if session.status != Running {
        return false, false;
      }
      Note("final_answer_submitted");
      Note("groundguard_check");
      if verified || config.finalAnswerMode == Pipeline.Warn {
        completionBlocked := false;
        TransitionSession(Completed);
        return true, true;
      }
      completionBlocked := true;
      return true, false;
    }
  }

  /** `RunToolUseCase.execute`, with the session as the observer of tool call statuses. */
  class RunToolUseCase {
    constructor () {}

    method FinalizePermission(effect: Pipeline.Effect, mode: Pipeline.ApprovalMode, response: Option<string>)
      returns (final: Pipeline.Effect)
      ensures final == Pipeline.Finalize(effect, mode, response)
    {
      if effect == Pipeline.Allow || effect == Pipeline.Deny {
        return effect;
      }
      if mode == Pipeline.AlwaysDeny {
        return Pipeline.Deny;
      }
      if mode == Pipeline.Mock {
        return Pipeline.Allow;
      }
      if mode == Pipeline.InlinePrompt {
        if response == Some("approve") {
          return Pipeline.Allow;
        }
        if response == Some("deny") {
          return Pipeline.Deny;
        }
        return Pipeline.Ask;
      }
      return Pipeline.Deny;
    }

    method Execute(s: GovernedSession, arguments: Arguments, response: Option<string>, a: Pipeline.Answers)
      returns (ending: Pipeline.Ending)
      requires s.activeToolCall.Some?
      modifies s`session, s`activeToolCall, s`pendingToolCallIds, s.evidence
      ensures s.activeToolCall.Some?
      ensures Pipeline.Ran(s.Airborne(), ending) ==
              Pipeline.RunTool(s.config, old(s.Airborne()), arguments, response, a)
    {
      var approvalResponse := response;
      var call := s.activeToolCall.value;
      s.evidence.Append(ToolIntent(s.session.runId, call.callId, call.toolName, arguments));
      if a.decision.Raises? || a.hook.Raises? {
        return Pipeline.PortRaised;
      }
      var decision, hook := a.decision.value, a.hook.value;
      if hook.hookId.Some? {
        s.Note("hook_decision");
      }
      var asks := decision.effect == Pipeline.Ask && approvalResponse.None?;
      if asks {
        var ok := s.RecordToolStatus(AwaitingApproval);
        if !ok {
          return Pipeline.LifecycleRaised;
        }
      }
      ending := Permit(s, decision, hook, asks, approvalResponse, a);
    }

    /** The final effect: left open while a deferred approval is out, and never more than a hook
        allows. */
    method SettlePermission(mode: Pipeline.ApprovalMode, effect: Pipeline.Effect, hookDenies: bool,
                            answer: Option<string>)
      returns (final: Pipeline.Effect)
      ensures final == Pipeline.FinalEffect(mode, effect, hookDenies, answer)
    {
      if effect == Pipeline.Ask && answer.None? && mode == Pipeline.Deferred && !hookDenies {
        final := Pipeline.Ask;
      } else if answer.Some? {
        final := FinalizePermission(effect, Pipeline.InlinePrompt, answer);
      } else {
        final := FinalizePermission(effect, mode, answer);
      }
      if hookDenies && final != Pipeline.Deny {
        final := Pipeline.Deny;
      }
    }

    method Permit(s: GovernedSession, decision: Pipeline.PermissionDecision, hook: Pipeline.HookDecision, asks: bool,
                  response: Option<string>, a: Pipeline.Answers) returns (ending: Pipeline.Ending)
      requires s.activeToolCall.Some?
      modifies s`session, s`activeToolCall, s`pendingToolCallIds, s.evidence
      ensures s.activeToolCall.Some?
      ensures Pipeline.Ran(s.Airborne(), ending) ==
              Pipeline.Permit(s.config, old(s.Airborne()), decision, hook, asks, response, a)
    {
      var approvalResponse := response;
      if asks && s.config.approvalMode == Pipeline.InlinePrompt && !hook.denies && s.config.canPrompt {
        s.Note("approval_prompted");
        if a.prompt.Raises? {
          return Pipeline.PortRaised;
        }
        approvalResponse := Some(a.prompt.value);
      }
      var final := SettlePermission(s.config.approvalMode, decision.effect, hook.denies, approvalResponse);
      hide Pipeline.FinalEffect, Pipeline.RecordStatus, Pipeline.Admit;
      s.Note("permission_decision");
      if final != Pipeline.Allow {
        if final != Pipeline.Ask {
          var ok := s.RecordToolStatus(PolicyDenied);
          if !ok {
            return Pipeline.LifecycleRaised;
          }
        }
        return Pipeline.Returned(final, decision, []);
      }
      ending := Admit(s, decision, a);
    }

    method Admit(s: GovernedSession, decision: Pipeline.PermissionDecision, a: Pipeline.Answers)
      returns (ending: Pipeline.Ending)
      requires s.activeToolCall.Some?
      modifies s`session, s`activeToolCall, s`pendingToolCallIds, s.evidence
      ensures s.activeToolCall.Some?
      ensures Pipeline.Ran(s.Airborne(), ending) == Pipeline.Admit(s.config, old(s.Airborne()), decision, a)
    {
      if decision.effect == Pipeline.Ask {
        var ok := s.RecordToolStatus(Approved);
        if !ok {
          return Pipeline.LifecycleRaised;
        }
      }
      if a.sandboxAllows.Raises? {
        return Pipeline.PortRaised;
      }
      s.Note("sandbox_decision");
      if !a.sandboxAllows.value {
        var ok := s.RecordToolStatus(SandboxDenied);
        return if ok then Pipeline.Returned(Pipeline.Allow, decision, []) else Pipeline.LifecycleRaised;
      }
      if a.backedUp.Raises? {
        return Pipeline.PortRaised;
      }
      ghost var at := |s.evidence.events|;
      var ok := s.RecordToolStatus(Executing);
      if !ok {
        return Pipeline.LifecycleRaised;
      }
      s.evidence.runs := s.evidence.runs + [at];
      ending := Perform(s, decision, a);
    }

    method Perform(s: GovernedSession, decision: Pipeline.PermissionDecision, a: Pipeline.Answers)
      returns (ending: Pipeline.Ending)
      requires s.activeToolCall.Some?
      modifies s`session, s`activeToolCall, s`pendingToolCallIds, s.evidence`events
      ensures s.activeToolCall.Some?
      ensures Pipeline.Ran(s.Airborne(), ending) == Pipeline.Perform(s.config, old(s.Airborne()), decision, a)
    {
      if a.result.Raises? {
        var ok := s.RecordToolStatus(CallFailed);
        return if ok then Pipeline.PortRaised else Pipeline.LifecycleRaised;
      }
      var result := a.result.value;
      s.evidence.Append(ToolResulted(s.session.runId, s.activeToolCall.value.callId, result.ok, result.output));
      if a.backedUp == Pipeline.Answered(true) && result.ok {
        if a.bound.Raises? || (a.bound.value.Some? && a.bound.value.value.runId != s.session.runId) {
          return Pipeline.PortRaised;
        }
        if a.bound.value.Some? {
          s.evidence.Append(WriteCheckpointed(a.bound.value.value));
        }
      }
      var runId := s.session.runId;
      var ok := s.RecordToolStatus(if result.ok then Succeeded else CallFailed);
      if !ok {
        return Pipeline.LifecycleRaised;
      }
      if a.mapped.Raises? || (a.mapped.value != [] && a.stored.Raises?) {
        return Pipeline.PortRaised;
      }
      s.evidence.Append(FactMapped(runId, a.mapped.value));
      return Pipeline.Returned(Pipeline.Allow, decision, a.mapped.value);
    }
  }
}
