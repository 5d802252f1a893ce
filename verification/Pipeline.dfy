/** One governed call as a function of the live session and of what its ports answer. */
module Pipeline {
  import opened Texts
  import opened Lifecycle
  import opened Entities

  datatype Effect = Allow | Ask | Deny

  datatype ApprovalMode = Deferred | AlwaysDeny | InlinePrompt | Mock

  datatype FinalAnswerMode = Warn | DenyCompletion | RequireRevision

  /** The settings of a session object, and the clock: the time at which the session writes an
      event as the n-th of the log, not counting decisions that come in during the operation. */
  datatype Config = Config(
    approvalMode: ApprovalMode,
    canPrompt: bool,
    ttlSeconds: Option<int>,
    finalAnswerMode: FinalAnswerMode,
    clock: nat -> int)

  /** Any port may answer anything of its type, or raise. */
  datatype Reply<+T> = Answered(value: T) | Raises

  datatype PermissionDecision = PermissionDecision(effect: Effect, reason: string, ruleId: Option<string>)

  datatype HookDecision = HookDecision(denies: bool, hookId: Option<string>)

  datatype ToolResult = ToolResult(ok: bool, output: Option<ContentDigest>)

  /** What the ports answer during one call, in the order in which they are asked. */
  datatype Answers = Answers(
    decision: Reply<PermissionDecision>,
    hook: Reply<HookDecision>,
    prompt: Reply<string>,
    sandboxAllows: Reply<bool>,
    backedUp: Reply<bool>,
    result: Reply<ToolResult>,
    bound: Reply<Option<Checkpoint>>,
    mapped: Reply<seq<Fact>>,
    stored: Reply<()>,
    approvalId: string,
    preview: Arguments)

  /** The state of a started `GovernedSession`, with the log it appends to. `runs` records
      the executor: for each time it ran, the position of the `executing` event before it. */
  datatype Live = Live(
    session: AgentSession,
    sequence: nat,
    pending: set<string>,
    facts: seq<Fact>,
    blocked: bool,
    log: seq<Event>,
    runs: seq<nat>)

  /** A live session with its active tool call. */
  datatype Flight = Flight(live: Live, call: SessionToolCall)

  function Emit(l: Live, e: Event): Live { l.(log := l.log + [e]) }

  function Note(l: Live, kind: string): Live { Emit(l, Noted(l.session.runId, kind)) }

  function Now(c: Config, l: Live): Stamp { At(c.clock(|l.log|)) }

  function TransitionSession(c: Config, l: Live, status: SessionStatus): Live
    requires SessionEdge(l.session.status, status)
  {
    var s := l.session.(status := status, updatedAt := Now(c, l));
    var moved := Emit(l.(session := s), SessionStatusChanged(s));
    if status == Completed then Note(moved, "session_completed") else moved
  }

  function Reconcile(c: Config, l: Live): Live {
    if l.pending != {} && l.session.status == Running then TransitionSession(c, l, WaitingApproval)
    else if l.pending == {} && l.session.status == WaitingApproval then TransitionSession(c, l, Running)
    else l
  }

  /** `_record_tool_status`; None is the lifecycle error, raised before anything changes. */
  function RecordStatus(c: Config, f: Flight, status: CallStatus): Option<Flight> {
    if !CallEdge(f.call.status, status) then None
    else
      var call := f.call.(status := status, updatedAt := Now(c, f.live));
      var noted := Emit(f.live, ToolCallStatusChanged(call));
      var pending :=
        if status == AwaitingApproval then noted.pending + {call.callId} else noted.pending - {call.callId};
      Some(Flight(Reconcile(c, noted.(pending := pending)), call))
  }

  /** `finalize_permission`. */
  function Finalize(effect: Effect, mode: ApprovalMode, response: Option<string>): Effect {
    if effect != Ask then effect
    else
      match mode
      case AlwaysDeny => Deny
      case Mock => Allow
      case InlinePrompt =>
        if response == Some("approve") then Allow else if response == Some("deny") then Deny else Ask
      case Deferred => Deny
  }

  datatype Ending =
    | Returned(final: Effect, decision: PermissionDecision, facts: seq<Fact>)
    | PortRaised
    | LifecycleRaised

  datatype Ran = Ran(flight: Flight, ending: Ending)

  function Proceed(f: Flight, next: Option<Flight>, ending: Ending): Ran {
    if next.None? then Ran(f, LifecycleRaised) else Ran(next.value, ending)
  }

  function NoteIf(f: Flight, cond: bool, kind: string): Flight {
    if cond then f.(live := Note(f.live, kind)) else f
  }

  /** The intent, the policy and the hooks. */
  function RunTool(c: Config, f: Flight, arguments: Arguments, response: Option<string>, a: Answers): Ran {
    var intent := ToolIntent(f.live.session.runId, f.call.callId, f.call.toolName, arguments);
    var f0 := f.(live := Emit(f.live, intent));
    if a.decision.Raises? || a.hook.Raises? then Ran(f0, PortRaised)
    else
      var f1 := NoteIf(f0, a.hook.value.hookId.Some?, "hook_decision");
      var asks := a.decision.value.effect == Ask && response.None?;
      var f2 := if asks then RecordStatus(c, f1, AwaitingApproval) else Some(f1);
      if f2.None? then Ran(f1, LifecycleRaised)
      else Permit(c, f2.value, a.decision.value, a.hook.value, asks, response, a)
  }

  /** The approval and the final permission. */
  function Permit(c: Config, f: Flight, decision: PermissionDecision, hook: HookDecision, asks: bool,
                  response: Option<string>, a: Answers): Ran
  {
    var prompts := asks && c.approvalMode == InlinePrompt && !hook.denies && c.canPrompt;
    var f0 := NoteIf(f, prompts, "approval_prompted");
    if prompts && a.prompt.Raises? then Ran(f0, PortRaised)
    else
      var answer := if prompts then Some(a.prompt.value) else response;
      var final := FinalEffect(c.approvalMode, decision.effect, hook.denies, answer);
      var f1 := f0.(live := Note(f0.live, "permission_decision"));
      match final
      case Allow => Admit(c, f1, decision, a)
      case Ask => Ran(f1, Returned(Ask, decision, []))
      case Deny => Proceed(f1, RecordStatus(c, f1, PolicyDenied), Returned(Deny, decision, []))
  }

  function FinalEffect(mode: ApprovalMode, effect: Effect, hookDenies: bool, answer: Option<string>): Effect {
    var settled :=
      if effect == Ask && answer.None? && mode == Deferred && !hookDenies then Ask
      else Finalize(effect, if answer.Some? then InlinePrompt else mode, answer);
    if hookDenies then Deny else settled
  }

  /** What it takes for a call to be allowed: a policy that allows, an approving answer, or
      the mock approver where nobody answered; and in each case no objection from a hook. */
  lemma AllowedIff(mode: ApprovalMode, effect: Effect, hookDenies: bool, answer: Option<string>)
    ensures FinalEffect(mode, effect, hookDenies, answer) == Allow <==>
              && !hookDenies
              && (effect == Allow || (effect == Ask && (answer == Some("approve") || (answer.None? && mode == Mock))))
    ensures FinalEffect(mode, effect, hookDenies, answer) == Ask <==>
              && !hookDenies && effect == Ask
              && if answer.None? then mode in {Deferred, InlinePrompt} else answer.value !in {"approve", "deny"}
  {
  }

  /** The sandbox and the recovery backup of a permitted call. */
  function Admit(c: Config, f: Flight, decision: PermissionDecision, a: Answers): Ran {
    var approved := if decision.effect == Ask then RecordStatus(c, f, Approved) else Some(f);
    if approved.None? then Ran(f, LifecycleRaised)
    else if a.sandboxAllows.Raises? then Ran(approved.value, PortRaised)
    else
      var f0 := approved.value.(live := Note(approved.value.live, "sandbox_decision"));
      if !a.sandboxAllows.value then
        Proceed(f0, RecordStatus(c, f0, SandboxDenied), Returned(Allow, decision, []))
      else if a.backedUp.Raises? then Ran(f0, PortRaised)
      else
        var executing := RecordStatus(c, f0, Executing);
        if executing.None? then Ran(f0, LifecycleRaised)
        else
          var run := executing.value.(live := executing.value.live.(runs := f0.live.runs + [|f0.live.log|]));
          Perform(c, run, decision, a)
  }

  /** The executor has run: its result, the restore point and the facts. */
  function Perform(c: Config, f: Flight, decision: PermissionDecision, a: Answers): Ran {
    if a.result.Raises? then Proceed(f, RecordStatus(c, f, CallFailed), PortRaised)
    else
      var runId := f.live.session.runId;
      var result := a.result.value;
      var f0 := f.(live := Emit(f.live, ToolResulted(runId, f.call.callId, result.ok, result.output)));
      var binds := a.backedUp == Answered(true) && result.ok;
      if binds && (a.bound.Raises? || (a.bound.value.Some? && a.bound.value.value.runId != runId)) then
        Ran(f0, PortRaised)
      else
        var f1 := if binds && a.bound.value.Some?
                  then f0.(live := Emit(f0.live, WriteCheckpointed(a.bound.value.value))) else f0;
        var done := RecordStatus(c, f1, if result.ok then Succeeded else CallFailed);
        if done.None? then Ran(f1, LifecycleRaised)
        else if a.mapped.Raises? || (a.mapped.value != [] && a.stored.Raises?) then Ran(done.value, PortRaised)
        else
          var facts := a.mapped.value;
          Ran(done.value.(live := Emit(done.value.live, FactMapped(runId, facts))), Returned(Allow, decision, facts))
  }

  // ----- The operations of a session -----

  datatype Outcome =
    // refused before anything was recorded
    | Refused
    | Raised(lifecycle: bool)
    | Finished(call: SessionToolCall, final: Effect, request: Option<ApprovalRequest>)

  datatype Turn = Turn(live: Live, outcome: Outcome)

  /** The session as `AgentSession.create` leaves it, before `start`. */
  function Fresh(session: AgentSession, log: seq<Event>): Live {
    Live(session, 0, {}, [], false, log, [])
  }

  function Start(c: Config, l: Live): Live
    requires l.session.status == Created
  {
    TransitionSession(c, Emit(l, SessionCreated(l.session)), Running)
  }

  function NewCall(c: Config, l: Live, toolName: string, arguments: Arguments): SessionToolCall {
    SessionToolCall(l.session.runId, l.session.sessionId, CallId(l.sequence), l.sequence, toolName,
                    OfArguments(arguments), None, Requested, Now(c, l), Now(c, l))
  }

  /** `ApprovalRequest.create`; None where it raises. */
  function NewApproval(c: Config, l: Live, call: SessionToolCall, decision: PermissionDecision, a: Answers)
    : Option<ApprovalRequest>
  {
    var requestedAt := c.clock(|l.log|);
    var expires := if c.ttlSeconds.Some? then Some(At(requestedAt + c.ttlSeconds.value)) else None;
    var request := ApprovalRequest(a.approvalId, l.session.runId, call.callId, call.toolName, call.digest,
                                   a.preview, decision.ruleId, decision.reason, At(requestedAt), expires, Pending);
    if (c.ttlSeconds.Some? && c.ttlSeconds.value <= 0) || !ValidApproval(request) then None else Some(request)
  }

  function FailSession(c: Config, l: Live): Live {
    if SessionEdge(l.session.status, Failed) then TransitionSession(c, l, Failed) else l
  }

  function Land(c: Config, ran: Ran): Turn {
    var l := ran.flight.live;
    if !ran.ending.Returned? then Turn(FailSession(c, l), Raised(ran.ending.LifecycleRaised?))
    else Turn(l.(facts := l.facts + ran.ending.facts), Finished(ran.flight.call, ran.ending.final, None))
  }

  predicate Accepting(l: Live) { l.session.status in {Running, WaitingApproval} }

  function Launch(c: Config, l: Live, toolName: string, arguments: Arguments, a: Answers): Ran {
    var l0 := l.(sequence := l.sequence + 1);
    var call := NewCall(c, l0, toolName, arguments);
    RunTool(c, Flight(Emit(l0, ToolCallRequested(call)), call), arguments, None, a)
  }

  function Execute(c: Config, l: Live, toolName: string, arguments: Arguments, a: Answers): Turn {
    if !Accepting(l) then Turn(l, Refused)
    else if Blank(toolName) then Turn(l.(sequence := l.sequence + 1), Refused)
    else
      var ran := Launch(c, l, toolName, arguments, a);
      var t := Land(c, ran);
      if t.outcome.Finished? && t.outcome.final == Ask then
        var request := NewApproval(c, t.live, t.outcome.call, ran.ending.decision, a);
        if request.None? then t.(outcome := Raised(false))
        else Turn(Emit(t.live, ApprovalRequested(request.value)), t.outcome.(request := request))
      else t
  }

  function ResumeCall(c: Config, l: Live, call: SessionToolCall, arguments: Arguments, response: string, a: Answers)
    : Turn
  {
    if l.session.status != WaitingApproval || call.status != AwaitingApproval
       || response !in {"approve", "deny"} || OfArguments(arguments) != call.digest then Turn(l, Refused)
    else Land(c, RunTool(c, Flight(l, call), arguments, Some(response), a))
  }

  function Close(c: Config, l: Live): Live {
    if l.session.status == Running && !l.blocked then TransitionSession(c, l, Completed) else l
  }

  function TimeOut(c: Config, l: Live): Live {
    if SessionOver(l.session.status) then l else FailSession(c, Note(l, "session_timed_out"))
  }

  /** `record_final_answer`; None where it raises. */
  function AnswerFinally(c: Config, l: Live, verified: bool): Option<Live> {
    if l.session.status != Running then None
    else
      var l0 := Note(Note(l, "final_answer_submitted"), "groundguard_check");
      if verified || c.finalAnswerMode == Warn then Some(TransitionSession(c, l0.(blocked := false), Completed))
      else Some(l0.(blocked := true))
  }
}
