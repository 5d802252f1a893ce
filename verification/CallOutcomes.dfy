/** What becomes of a governed call: its status, its trail in the log, its facts and its
    approval request, as functions of what the ports answer. */
module CallOutcomes {
  import opened Texts
  import opened Lifecycle
  import opened Entities
  import opened Replay
  import opened Pipeline
  import opened Agreement
  import opened SessionAgreement
  import opened Lifetimes
  import opened ExecutionGate

  // ----- What the answers amount to -----

  /** The approver is asked at the prompt. */
  predicate Prompts(c: Config, response: Option<string>, a: Answers) {
    && a.decision.Answered? && a.decision.value.effect == Ask && response.None?
    && a.hook.Answered? && !a.hook.value.denies && c.approvalMode == InlinePrompt && c.canPrompt
  }

  predicate Refuses(c: Config, response: Option<string>, a: Answers) {
    && a.decision.Answered? && a.hook.Answered?
    && (|| a.hook.value.denies || a.decision.value.effect == Deny
        || (a.decision.value.effect == Ask && response == Some("deny"))
        || (a.decision.value.effect == Ask && response.None? && c.approvalMode == AlwaysDeny)
        || (Prompts(c, response, a) && a.prompt == Answered("deny")))
  }

  /** Nobody has answered yet. */
  predicate LeavesOpen(c: Config, response: Option<string>, a: Answers) {
    && a.decision.Answered? && a.decision.value.effect == Ask && response.None?
    && a.hook.Answered? && !a.hook.value.denies
    && (|| c.approvalMode == Deferred
        || (c.approvalMode == InlinePrompt
            && (c.canPrompt ==> a.prompt.Answered? && a.prompt.value !in {"approve", "deny"})))
  }

  predicate LetsThrough(c: Config, response: Option<string>, a: Answers) {
    && a.decision.Answered? && a.hook.Answered? && !a.hook.value.denies
    && (a.decision.value.effect == Allow || Approves(c, a.decision.value.effect, response, a))
  }

  /** A resumed call that the policy allows outright: it cannot go on from where it waits. */
  predicate Stalls(c: Config, response: Option<string>, a: Answers) {
    && response.Some? && LetsThrough(c, response, a) && a.decision.value.effect == Allow
    && a.sandboxAllows.Answered? && (a.sandboxAllows.value ==> a.backedUp.Answered?)
  }

  /** The executor has answered, and its restore point is bound where there was a backup. */
  predicate Concludes(c: Config, response: Option<string>, a: Answers) {
    && MayRun(c, response, a) && a.result.Answered?
    && (a.result.value.ok && a.backedUp.value ==> a.bound.Answered?)
  }

  /** The status in which the pipeline leaves a call. */
  function Fate(c: Config, response: Option<string>, a: Answers): CallStatus {
    if LeftBy(c, response, a).Some? then LeftBy(c, response, a).value
    else if Refuses(c, response, a) then PolicyDenied
    else if LeavesOpen(c, response, a) || Stalls(c, response, a) then AwaitingApproval
    else if a.sandboxAllows == Answered(false) then SandboxDenied
    else if a.result.Answered? && a.result.value.ok then Succeeded
    else CallFailed
  }

  function FinalOf(c: Config, response: Option<string>, a: Answers): Effect {
    if LetsThrough(c, response, a) then Allow else if LeavesOpen(c, response, a) then Ask else Deny
  }

  function FactsOf(c: Config, response: Option<string>, a: Answers): seq<Fact> {
    if MayRun(c, response, a) && a.mapped.Answered? then a.mapped.value else []
  }

  /** Once policy and hook, and the prompt if there is one, have answered, a call is refused,
      left open or let through, and only one of these. */
  lemma OneOfThree(c: Config, response: Option<string>, a: Answers)
    requires Answerable(response) && a.decision.Answered? && a.hook.Answered?
    requires Prompts(c, response, a) ==> a.prompt.Answered?
    ensures Refuses(c, response, a) || LeavesOpen(c, response, a) || LetsThrough(c, response, a)
    ensures !(Refuses(c, response, a) && LeavesOpen(c, response, a))
    ensures !(Refuses(c, response, a) && LetsThrough(c, response, a))
    ensures !(LeavesOpen(c, response, a) && LetsThrough(c, response, a))
  {
  }

  // ----- The trail of a call -----

  /** What an event says of the call under way; the session's own status is left aside. */
  datatype Mark = Leaves(event: Event) | Moves(status: CallStatus)

  function MarkOf(e: Event): seq<Mark> {
    match e
    case ToolCallStatusChanged(call) => [Moves(call.status)]
    case SessionStatusChanged(_) => []
    case _ => [Leaves(e)]
  }

  function MarksOf(log: seq<Event>): seq<Mark> {
    if log == [] then [] else MarksOf(log[..|log| - 1]) + MarkOf(log[|log| - 1])
  }

  function When(cond: bool, mark: Mark): seq<Mark> { if cond then [mark] else [] }

  /** Up to the decision. */
  function DecidingTrail(runId: string, call: SessionToolCall, arguments: Arguments, response: Option<string>,
                         a: Answers): seq<Mark>
  {
    var decided := a.decision.Answered? && a.hook.Answered?;
    [Leaves(ToolIntent(runId, call.callId, call.toolName, arguments))]
    + When(decided && a.hook.value.hookId.Some?, Leaves(Noted(runId, "hook_decision")))
    + When(decided && a.decision.value.effect == Ask && response.None?, Moves(AwaitingApproval))
  }

  /** The approval and the final permission. */
  function PermittingTrail(c: Config, runId: string, response: Option<string>, a: Answers): seq<Mark> {
    var decided := a.decision.Answered? && a.hook.Answered?;
    When(Prompts(c, response, a), Leaves(Noted(runId, "approval_prompted")))
    + When(decided && (Prompts(c, response, a) ==> a.prompt.Answered?), Leaves(Noted(runId, "permission_decision")))
    + When(Refuses(c, response, a), Moves(PolicyDenied))
  }

  /** From the permission to the executor. */
  function AdmittingTrail(c: Config, runId: string, response: Option<string>, a: Answers): seq<Mark> {
    var through := LetsThrough(c, response, a);
    When(through && a.decision.value.effect == Ask, Moves(Approved))
    + When(through && a.sandboxAllows.Answered?, Leaves(Noted(runId, "sandbox_decision")))
    + When(through && a.sandboxAllows == Answered(false) && !Stalls(c, response, a), Moves(SandboxDenied))
    + When(MayRun(c, response, a), Moves(Executing))
  }

  /** The executor's answer, the restore point and the facts. */
  function PerformingTrail(c: Config, runId: string, callId: string, response: Option<string>, a: Answers): seq<Mark> {
    var ran, concludes := MayRun(c, response, a) && a.result.Answered?, Concludes(c, response, a);
    When(MayRun(c, response, a) && a.result.Raises?, Moves(CallFailed))
    + (if ran then [Leaves(ToolResulted(runId, callId, a.result.value.ok, a.result.value.output))] else [])
    + (if concludes && a.result.value.ok && a.backedUp.value && a.bound.value.Some?
       then [Leaves(WriteCheckpointed(a.bound.value.value))] else [])
    + (if concludes then [Moves(if a.result.value.ok then Succeeded else CallFailed)] else [])
    + (if concludes && a.mapped.Answered? && (a.mapped.value == [] || a.stored.Answered?)
       then [Leaves(FactMapped(runId, a.mapped.value))] else [])
  }

  /** Everything a call writes, in order, and when. */
  function Trail(c: Config, runId: string, call: SessionToolCall, arguments: Arguments, response: Option<string>,
                 a: Answers): seq<Mark>
  {
    DecidingTrail(runId, call, arguments, response, a) + PermittingTrail(c, runId, response, a)
    + AdmittingTrail(c, runId, response, a) + PerformingTrail(c, runId, call.callId, response, a)
  }

  // ----- The stages leave that trail -----

  /** From one flight to a later one of the same call, with these marks in between. */
  predicate Marked(f: Flight, g: Flight, marks: seq<Mark>) {
    && SameCall(g.call, f.call) && g.live.session.runId == f.live.session.runId
    && g.live.facts == f.live.facts && MarksOf(g.live.log) == MarksOf(f.live.log) + marks
  }

  lemma MarksSnoc(log: seq<Event>, e: Event)
    ensures MarksOf(log + [e]) == MarksOf(log) + MarkOf(e)
  {
    assert (log + [e])[..|log|] == log;
  }

  lemma NotMarked(f: Flight)
    ensures Marked(f, f, [])
  {
  }

  lemma MarkedOn(f: Flight, g: Flight, h: Flight, a: seq<Mark>, b: seq<Mark>)
    requires Marked(f, g, a) && Marked(g, h, b)
    ensures Marked(f, h, a + b)
  {
    hide MarksOf;
  }

  lemma EmitMarked(f: Flight, e: Event)
    requires !e.ToolCallStatusChanged? && !e.SessionStatusChanged?
    ensures Marked(f, f.(live := Emit(f.live, e)), [Leaves(e)])
  {
    MarksSnoc(f.live.log, e);
  }

  lemma NoteMarked(f: Flight, cond: bool, kind: string)
    ensures Marked(f, NoteIf(f, cond, kind), When(cond, Leaves(Noted(f.live.session.runId, kind))))
  {
    MarksSnoc(f.live.log, Noted(f.live.session.runId, kind));
  }

  lemma SessionUnmarked(c: Config, l: Live, status: SessionStatus)
    requires SessionEdge(l.session.status, status) && status != Completed
    ensures var m := TransitionSession(c, l, status);
            MarksOf(m.log) == MarksOf(l.log) && m.facts == l.facts && m.session.runId == l.session.runId
  {
    MarksSnoc(l.log, SessionStatusChanged(l.session.(status := status, updatedAt := Now(c, l))));
  }

  lemma RecordMarked(c: Config, f: Flight, status: CallStatus)
    requires CallEdge(f.call.status, status)
    ensures RecordStatus(c, f, status).Some?
    ensures var g := RecordStatus(c, f, status).value;
            Marked(f, g, [Moves(status)]) && g.call.status == status
  {
    var call := f.call.(status := status, updatedAt := Now(c, f.live));
    MarksSnoc(f.live.log, ToolCallStatusChanged(call));
    var noted := Noticed(c, f, call);
    hide MarksOf, TransitionSession;
    if noted.pending != {} && noted.session.status == Running {
      SessionUnmarked(c, noted, WaitingApproval);
    } else if noted.pending == {} && noted.session.status == WaitingApproval {
      SessionUnmarked(c, noted, Running);
    }
  }

  /** How a stage ends: where, after which marks, and what it hands back. */
  predicate Ends(c: Config, f: Flight, response: Option<string>, a: Answers, r: Ran, marks: seq<Mark>) {
    && Marked(f, r.flight, marks) && r.flight.call.status == Fate(c, response, a)
    && (r.ending.PortRaised? <==> LeftBy(c, response, a).Some?)
    && (r.ending.LifecycleRaised? <==> Stalls(c, response, a))
    && (r.ending.Returned? ==>
          && a.decision == Answered(r.ending.decision)
          && r.ending.final == FinalOf(c, response, a) && r.ending.facts == FactsOf(c, response, a))
  }

  lemma EndsOn(c: Config, f: Flight, g: Flight, response: Option<string>, a: Answers, r: Ran, earlier: seq<Mark>,
               later: seq<Mark>)
    requires Marked(f, g, earlier) && Ends(c, g, response, a, r, later)
    ensures Ends(c, f, response, a, r, earlier + later)
  {
    MarkedOn(f, g, r.flight, earlier, later);
    hide Marked, Fate, LeftBy, Stalls, FinalOf, FactsOf;
  }

  // ----- What the answers say once the executor is reached -----

  /** The facts are recorded last. */
  predicate FactsRecorded(a: Answers) {
    a.mapped.Answered? && (a.mapped.value == [] || a.stored.Answered?)
  }

  lemma RunningFate(c: Config, response: Option<string>, a: Answers)
    requires MayRun(c, response, a)
    ensures !Stalls(c, response, a) && LetsThrough(c, response, a) && FinalOf(c, response, a) == Allow
    ensures LeftBy(c, response, a).Some? <==> a.result.Raises? || !Concludes(c, response, a) || !FactsRecorded(a)
    ensures Fate(c, response, a) ==
            if a.result.Raises? then CallFailed
            else if !Concludes(c, response, a) then Executing
            else if a.result.value.ok then Succeeded else CallFailed
    ensures FactsOf(c, response, a) == if a.mapped.Answered? then a.mapped.value else []
  {
  }

  lemma RunningTrail(c: Config, runId: string, callId: string, response: Option<string>, a: Answers)
    requires MayRun(c, response, a)
    ensures PerformingTrail(c, runId, callId, response, a) ==
            if a.result.Raises? then [Moves(CallFailed)]
            else
              [Leaves(ToolResulted(runId, callId, a.result.value.ok, a.result.value.output))]
              + (if Concludes(c, response, a) then ClosingTrail(runId, a) else [])
  {
    ConcludesParts(c, response, a);
    hide MayRun, Concludes;
    if a.result.Answered? && Concludes(c, response, a) {
      assert PerformingTrail(c, runId, callId, response, a) ==
             [Leaves(ToolResulted(runId, callId, a.result.value.ok, a.result.value.output))] + ClosingTrail(runId, a);
    }
  }

  function ClosingTrail(runId: string, a: Answers): seq<Mark>
    requires a.result.Answered? && (a.result.value.ok && a.backedUp.Answered? && a.backedUp.value ==> a.bound.Answered?)
  {
    (if a.result.value.ok && a.backedUp.Answered? && a.backedUp.value && a.bound.value.Some?
     then [Leaves(WriteCheckpointed(a.bound.value.value))] else [])
    + [Moves(if a.result.value.ok then Succeeded else CallFailed)]
    + (if FactsRecorded(a) then [Leaves(FactMapped(runId, a.mapped.value))] else [])
  }

  lemma UnrunTrail(c: Config, runId: string, callId: string, response: Option<string>, a: Answers)
    requires !MayRun(c, response, a)
    ensures PerformingTrail(c, runId, callId, response, a) == []
  {
    hide MayRun;
  }

  lemma ConcludesParts(c: Config, response: Option<string>, a: Answers)
    requires MayRun(c, response, a)
    ensures a.backedUp.Answered?
    ensures Concludes(c, response, a) <==>
              a.result.Answered? && (a.result.value.ok && a.backedUp.value ==> a.bound.Answered?)
  {
  }

  // ----- The stages, from the last one -----

  lemma PerformEnds(c: Config, f: Flight, response: Option<string>, decision: PermissionDecision, a: Answers)
    requires f.call.status == Executing && BindsOwnRun(f.live.session.runId, a)
    requires MayRun(c, response, a) && a.decision == Answered(decision)
    ensures Ends(c, f, response, a, Perform(c, f, decision, a),
                 PerformingTrail(c, f.live.session.runId, f.call.callId, response, a))
  {
    var runId, id := f.live.session.runId, f.call.callId;
    hide RecordStatus, MarksOf, SameCall, Fate, LeftBy, Stalls, FinalOf, FactsOf, PerformingTrail, MayRun, Concludes;
    hide LetsThrough, ClosingTrail, Marked, Closing;
    RunningFate(c, response, a);
    RunningTrail(c, runId, id, response, a);
    ConcludesParts(c, response, a);
    if a.result.Raises? {
      RecordMarked(c, f, CallFailed);
    } else {
      var e := ToolResulted(runId, id, a.result.value.ok, a.result.value.output);
      var f0 := f.(live := Emit(f.live, e));
      EmitMarked(f, e);
      if Concludes(c, response, a) {
        ClosingMarked(c, f0, a);
        PerformIsClosing(c, f, decision, a);
        MarkedOn(f, f0, Perform(c, f, decision, a).flight, [Leaves(e)], ClosingTrail(runId, a));
      } else {
        assert [Leaves(e)] + [] == [Leaves(e)];
      }
    }
  }

  /** From the result on. */
  function Closing(c: Config, f: Flight, a: Answers): Flight
    requires a.result.Answered? && a.backedUp.Answered? && f.call.status == Executing
    requires a.result.value.ok && a.backedUp.value ==> a.bound.Answered?
  {
    var binds := a.result.value.ok && a.backedUp.value && a.bound.value.Some?;
    var f1 := if binds then f.(live := Emit(f.live, WriteCheckpointed(a.bound.value.value))) else f;
    var done := RecordStatus(c, f1, if a.result.value.ok then Succeeded else CallFailed).value;
    if FactsRecorded(a) then done.(live := Emit(done.live, FactMapped(f.live.session.runId, a.mapped.value))) else done
  }

  lemma ClosingMarked(c: Config, f: Flight, a: Answers)
    requires a.result.Answered? && a.backedUp.Answered? && f.call.status == Executing
    requires a.result.value.ok && a.backedUp.value ==> a.bound.Answered?
    ensures Marked(f, Closing(c, f, a), ClosingTrail(f.live.session.runId, a))
    ensures Closing(c, f, a).call.status == if a.result.value.ok then Succeeded else CallFailed
  {
    var runId := f.live.session.runId;
    var binds := a.result.value.ok && a.backedUp.value && a.bound.value.Some?;
    var point := if binds then [Leaves(WriteCheckpointed(a.bound.value.value))] else [];
    var f1 := if binds then f.(live := Emit(f.live, WriteCheckpointed(a.bound.value.value))) else f;
    NotMarked(f);
    if binds {
      EmitMarked(f, WriteCheckpointed(a.bound.value.value));
    }
    var status := if a.result.value.ok then Succeeded else CallFailed;
    assert CallEdge(Executing, status) && f1.call == f.call && f1.live.session == f.live.session;
    hide RecordStatus, Marked, CallEdge;
    RecordMarked(c, f1, status);
    var done := RecordStatus(c, f1, status).value;
    RecordRuns(c, f1, status);
    MarkedOn(f, f1, done, point, [Moves(status)]);
    if FactsRecorded(a) {
      var e := FactMapped(runId, a.mapped.value);
      EmitMarked(done, e);
      MarkedOn(f, done, Closing(c, f, a), point + [Moves(status)], [Leaves(e)]);
    } else {
      assert point + [Moves(status)] + [] == point + [Moves(status)];
    }
  }

  lemma PerformIsClosing(c: Config, f: Flight, decision: PermissionDecision, a: Answers)
    requires a.result.Answered? && a.backedUp.Answered? && f.call.status == Executing
    requires BindsOwnRun(f.live.session.runId, a) && (a.result.value.ok && a.backedUp.value ==> a.bound.Answered?)
    ensures var e := ToolResulted(f.live.session.runId, f.call.callId, a.result.value.ok, a.result.value.output);
            var r := Perform(c, f, decision, a);
            && r.flight == Closing(c, f.(live := Emit(f.live, e)), a)
            && r.ending == if FactsRecorded(a) then Returned(Allow, decision, a.mapped.value) else PortRaised
  {
    assert CallEdge(Executing, CallFailed) && CallEdge(Executing, Succeeded);
    hide Reconcile;
  }

  /** A call that is let through, but that sandbox or backup keep from running. */
  lemma ThroughFate(c: Config, response: Option<string>, a: Answers)
    requires Answerable(response) && LetsThrough(c, response, a) && !MayRun(c, response, a)
    ensures LeftBy(c, response, a).Some? <==> a.sandboxAllows.Raises? || (a.sandboxAllows.value && a.backedUp.Raises?)
    ensures Stalls(c, response, a) <==>
              response.Some? && a.decision.value.effect == Allow && LeftBy(c, response, a).None?
    ensures !LeftBy(c, response, a).Some? && !Stalls(c, response, a) ==> a.sandboxAllows == Answered(false)
    ensures Fate(c, response, a) ==
            if LeftBy(c, response, a).Some? then Admitted(a.decision.value.effect, response)
            else if Stalls(c, response, a) then AwaitingApproval
            else SandboxDenied
    ensures FinalOf(c, response, a) == Allow && FactsOf(c, response, a) == []
  {
    ThroughAnswered(c, response, a);
    OneOfThree(c, response, a);
    assert a.sandboxAllows.Answered? && a.sandboxAllows.value ==> a.sandboxAllows == Answered(true);
    assert a.sandboxAllows.Answered? && !a.sandboxAllows.value ==> a.sandboxAllows == Answered(false);
  }

  lemma AdmittingIs(c: Config, runId: string, response: Option<string>, a: Answers)
    requires LetsThrough(c, response, a)
    ensures var asked := When(a.decision.value.effect == Ask, Moves(Approved));
            AdmittingTrail(c, runId, response, a) ==
            if a.sandboxAllows.Raises? then asked
            else
              asked + [Leaves(Noted(runId, "sandbox_decision"))]
              + (if MayRun(c, response, a) then [Moves(Executing)]
                 else When(!a.sandboxAllows.value && !Stalls(c, response, a), Moves(SandboxDenied)))
  {
    MayRunMeans(c, response, a);
    var asked := When(a.decision.value.effect == Ask, Moves(Approved));
    var noted := [Leaves(Noted(runId, "sandbox_decision"))];
    hide LetsThrough, Stalls, MayRun;
    if a.sandboxAllows.Raises? {
      assert AdmittingTrail(c, runId, response, a) == asked;
    } else if MayRun(c, response, a) {
      assert AdmittingTrail(c, runId, response, a) == asked + noted + [Moves(Executing)];
    } else {
      var denied := When(!a.sandboxAllows.value && !Stalls(c, response, a), Moves(SandboxDenied));
      assert AdmittingTrail(c, runId, response, a) == asked + noted + denied;
    }
  }

  lemma MayRunMeans(c: Config, response: Option<string>, a: Answers)
    ensures MayRun(c, response, a) ==> a.sandboxAllows == Answered(true) && a.backedUp.Answered?
  {
  }

  lemma AdmitEnds(c: Config, f: Flight, response: Option<string>, decision: PermissionDecision, a: Answers)
    requires Answerable(response) && BindsOwnRun(f.live.session.runId, a)
    requires a.decision == Answered(decision) && LetsThrough(c, response, a)
    requires f.call.status == if decision.effect == Ask then AwaitingApproval else Entry(response)
    ensures Ends(c, f, response, a, Admit(c, f, decision, a),
                 AdmittingTrail(c, f.live.session.runId, response, a)
                 + PerformingTrail(c, f.live.session.runId, f.call.callId, response, a))
  {
    var runId, id := f.live.session.runId, f.call.callId;
    var asked := When(decision.effect == Ask, Moves(Approved));
    assert CallEdge(AwaitingApproval, Approved);
    NotMarked(f);
    AdmittingIs(c, runId, response, a);
    hide RecordStatus, Perform, Marked, Stalls, LetsThrough, Fate, LeftBy, FinalOf, FactsOf, AdmittingTrail;
    hide PerformingTrail, MayRun, CallEdge;
    if decision.effect == Ask {
      RecordMarked(c, f, Approved);
    }
    RecordRuns(c, f, Approved);
    var f0 := if decision.effect == Ask then RecordStatus(c, f, Approved).value else f;
    var note := Noted(runId, "sandbox_decision");
    var f1 := f0.(live := Emit(f0.live, note));
    EmitMarked(f0, note);
    MarkedOn(f, f0, f1, asked, [Leaves(note)]);
    assert a.sandboxAllows.Answered? ==> Admit(c, f, decision, a) == Sandboxed(c, f1, decision, a);
    if MayRun(c, response, a) {
      AdmitRuns(c, f, f1, asked + [Leaves(note)], response, decision, a);
    } else {
      AdmitStops(c, f, f0, f1, asked, response, decision, a);
    }
  }

  /** The rest of `Admit` once the sandbox has answered. */
  function Sandboxed(c: Config, f: Flight, decision: PermissionDecision, a: Answers): Ran
    requires a.sandboxAllows.Answered?
  {
    if !a.sandboxAllows.value then
      Proceed(f, RecordStatus(c, f, SandboxDenied), Returned(Allow, decision, []))
    else if a.backedUp.Raises? then Ran(f, PortRaised)
    else
      var executing := RecordStatus(c, f, Executing);
      if executing.None? then Ran(f, LifecycleRaised)
      else
        var run := executing.value.(live := executing.value.live.(runs := f.live.runs + [|f.live.log|]));
        Perform(c, run, decision, a)
  }

  lemma AdmitRuns(c: Config, f: Flight, f1: Flight, marks: seq<Mark>, response: Option<string>,
                  decision: PermissionDecision, a: Answers)
    requires Answerable(response) && BindsOwnRun(f.live.session.runId, a) && MayRun(c, response, a)
    requires a.decision == Answered(decision) && Marked(f, f1, marks)
    requires f1.call.status == Admitted(decision.effect, response)
    ensures Ends(c, f, response, a, Sandboxed(c, f1, decision, a),
                 marks + [Moves(Executing)]
                 + PerformingTrail(c, f.live.session.runId, f.call.callId, response, a))
  {
    assert CallEdge(f1.call.status, Executing);
    MayRunMeans(c, response, a);
    hide RecordStatus, Perform, Fate, PerformingTrail, Admitted, CallEdge, MarksOf, MayRun, Ends;
    RecordMarked(c, f1, Executing);
    var g := RecordStatus(c, f1, Executing).value;
    var run := g.(live := g.live.(runs := f1.live.runs + [|f1.live.log|]));
    PerformEnds(c, run, response, decision, a);
    MarkedOn(f, f1, run, marks, [Moves(Executing)]);
    EndsOn(c, f, run, response, a, Perform(c, run, decision, a), marks + [Moves(Executing)],
           PerformingTrail(c, f.live.session.runId, f.call.callId, response, a));
  }

  lemma AdmitStops(c: Config, f: Flight, f0: Flight, f1: Flight, asked: seq<Mark>, response: Option<string>,
                   decision: PermissionDecision, a: Answers)
    requires Answerable(response) && LetsThrough(c, response, a) && !MayRun(c, response, a)
    requires a.decision == Answered(decision) && Marked(f, f0, asked) && f1.call == f0.call
    requires asked == When(decision.effect == Ask, Moves(Approved))
    requires f0.call.status == Admitted(decision.effect, response)
    requires Marked(f, f1, asked + [Leaves(Noted(f.live.session.runId, "sandbox_decision"))])
    ensures Ends(c, f, response, a,
                 if a.sandboxAllows.Raises? then Ran(f0, PortRaised) else Sandboxed(c, f1, decision, a),
                 AdmittingTrail(c, f.live.session.runId, response, a)
                 + PerformingTrail(c, f.live.session.runId, f.call.callId, response, a))
  {
    var runId, id := f.live.session.runId, f.call.callId;
    var noted := asked + [Leaves(Noted(runId, "sandbox_decision"))];
    hide RecordStatus, Perform, Marked, Fate, LeftBy, FinalOf, FactsOf, AdmittingTrail, PerformingTrail, MayRun;
    hide LetsThrough, Stalls, CallEdge;
    ThroughFate(c, response, a);
    ThroughAnswered(c, response, a);
    UnrunTrail(c, runId, id, response, a);
    AdmittingIs(c, runId, response, a);
    StalledEdges(decision.effect, response);
    RecordRuns(c, f1, SandboxDenied);
    RecordRuns(c, f1, Executing);
    if a.sandboxAllows.Raises? {
      assert asked + [] == asked;
    } else if a.sandboxAllows == Answered(false) && !Stalls(c, response, a) {
      RecordMarked(c, f1, SandboxDenied);
      MarkedOn(f, f1, RecordStatus(c, f1, SandboxDenied).value, noted, [Moves(SandboxDenied)]);
      assert noted + [Moves(SandboxDenied)] + [] == noted + [Moves(SandboxDenied)];
    } else {
      assert noted + [] + [] == noted;
    }
  }

  /** Where an allowed call can go from the status in which the sandbox finds it. */
  lemma StalledEdges(effect: Effect, response: Option<string>)
    requires effect != Deny
    ensures var stalled := effect == Allow && response.Some?;
            && (CallEdge(Admitted(effect, response), SandboxDenied) <==> !stalled)
            && (CallEdge(Admitted(effect, response), Executing) <==> !stalled)
  {
  }

  /** A call that is not let through. */
  lemma BarredFate(c: Config, response: Option<string>, a: Answers)
    requires Answerable(response) && a.decision.Answered? && a.hook.Answered? && !LetsThrough(c, response, a)
    ensures !MayRun(c, response, a) && !Stalls(c, response, a) && FactsOf(c, response, a) == []
    ensures LeftBy(c, response, a).Some? <==> Prompts(c, response, a) && a.prompt.Raises?
    ensures if LeftBy(c, response, a).Some? then !Refuses(c, response, a)
            else Refuses(c, response, a) != LeavesOpen(c, response, a)
    ensures Fate(c, response, a) == if Refuses(c, response, a) then PolicyDenied else AwaitingApproval
    ensures !LeftBy(c, response, a).Some? ==>
              FinalOf(c, response, a) == if LeavesOpen(c, response, a) then Ask else Deny
  {
  }

  lemma BarredTrail(c: Config, runId: string, callId: string, response: Option<string>, a: Answers)
    requires a.decision.Answered? && a.hook.Answered? && !LetsThrough(c, response, a)
    ensures AdmittingTrail(c, runId, response, a) == [] && PerformingTrail(c, runId, callId, response, a) == []
  {
    assert !MayRun(c, response, a);
    hide LetsThrough, MayRun;
  }

  /** What the specification of the final permission comes to. */
  lemma FinalIs(c: Config, response: Option<string>, a: Answers)
    requires Answerable(response) && a.decision.Answered? && a.hook.Answered?
    requires Prompts(c, response, a) ==> a.prompt.Answered?
    ensures var answer := if Prompts(c, response, a) then Some(a.prompt.value) else response;
            var final := FinalEffect(c.approvalMode, a.decision.value.effect, a.hook.value.denies, answer);
            && final == FinalOf(c, response, a)
            && (final == Deny <==> Refuses(c, response, a))
            && (final == Allow <==> LetsThrough(c, response, a))
  {
    var answer := if Prompts(c, response, a) then Some(a.prompt.value) else response;
    AllowedIff(c.approvalMode, a.decision.value.effect, a.hook.value.denies, answer);
    OneOfThree(c, response, a);
  }

  lemma PermittingIs(c: Config, runId: string, response: Option<string>, a: Answers)
    requires a.decision.Answered? && a.hook.Answered? && (Refuses(c, response, a) ==> !LetsThrough(c, response, a))
    requires Prompts(c, response, a) && a.prompt.Raises? ==> !Refuses(c, response, a)
    ensures var prompted := When(Prompts(c, response, a), Leaves(Noted(runId, "approval_prompted")));
            PermittingTrail(c, runId, response, a) ==
            if Prompts(c, response, a) && a.prompt.Raises? then prompted
            else
              prompted + [Leaves(Noted(runId, "permission_decision"))]
              + When(Refuses(c, response, a), Moves(PolicyDenied))
  {
    hide LetsThrough, Refuses, Prompts;
  }

  lemma BarredEnds(c: Config, f: Flight, f0: Flight, f1: Flight, response: Option<string>, a: Answers)
    requires Answerable(response) && a.decision.Answered? && a.hook.Answered? && !LetsThrough(c, response, a)
    requires f.call.status == if a.decision.value.effect == Ask then AwaitingApproval else Entry(response)
    requires f0 == NoteIf(f, Prompts(c, response, a), "approval_prompted")
    requires f1 == f0.(live := Note(f0.live, "permission_decision"))
    requires var prompted := When(Prompts(c, response, a), Leaves(Noted(f.live.session.runId, "approval_prompted")));
             && Marked(f, f0, prompted)
             && Marked(f, f1, prompted + [Leaves(Noted(f.live.session.runId, "permission_decision"))])
    ensures var asks := a.decision.value.effect == Ask && response.None?;
            Ends(c, f, response, a, Permit(c, f, a.decision.value, a.hook.value, asks, response, a),
                 PermittingTrail(c, f.live.session.runId, response, a)
                 + (AdmittingTrail(c, f.live.session.runId, response, a)
                    + PerformingTrail(c, f.live.session.runId, f.call.callId, response, a)))
  {
    var runId, id := f.live.session.runId, f.call.callId;
    var prompts := Prompts(c, response, a);
    var prompted := When(prompts, Leaves(Noted(runId, "approval_prompted")));
    var noted := prompted + [Leaves(Noted(runId, "permission_decision"))];
    assert CallEdge(f1.call.status, PolicyDenied) && f1.call == f.call && f0.call == f.call;
    hide Marked, RecordStatus, Admit, FinalEffect, Refuses, LetsThrough, LeavesOpen, Fate, LeftBy, Stalls, FinalOf;
    hide FactsOf, AdmittingTrail, PerformingTrail, MayRun, CallEdge, PermittingTrail, Permit, Prompts, NoteIf;
    PermitBars(c, f, response, a);
    BarredFate(c, response, a);
    BarredTrail(c, runId, id, response, a);
    PermittingIs(c, runId, response, a);
    if prompts && a.prompt.Raises? {
      assert prompted + ([] + []) == prompted;
    } else if Refuses(c, response, a) {
      RecordMarked(c, f1, PolicyDenied);
      MarkedOn(f, f1, RecordStatus(c, f1, PolicyDenied).value, noted, [Moves(PolicyDenied)]);
      assert noted + [Moves(PolicyDenied)] + ([] + []) == noted + [Moves(PolicyDenied)];
    } else {
      assert noted + [] + ([] + []) == noted;
    }
  }

  /** A call that is not let through stays where it is, unless it is refused. */
  lemma PermitBars(c: Config, f: Flight, response: Option<string>, a: Answers)
    requires a.decision.Answered? && a.hook.Answered? && Answerable(response) && !LetsThrough(c, response, a)
    requires CallEdge(f.call.status, PolicyDenied)
    ensures var f0 := NoteIf(f, Prompts(c, response, a), "approval_prompted");
            var f1 := f0.(live := Note(f0.live, "permission_decision"));
            var asks := a.decision.value.effect == Ask && response.None?;
            Permit(c, f, a.decision.value, a.hook.value, asks, response, a) ==
            if Prompts(c, response, a) && a.prompt.Raises? then Ran(f0, PortRaised)
            else if Refuses(c, response, a) then
              Ran(RecordStatus(c, f1, PolicyDenied).value, Returned(Deny, a.decision.value, []))
            else Ran(f1, Returned(Ask, a.decision.value, []))
  {
    if !(Prompts(c, response, a) && a.prompt.Raises?) {
      FinalIs(c, response, a);
    }
    hide Admit, FinalEffect, LetsThrough, Refuses, FinalOf, Reconcile;
  }

  /** A call that is let through goes to the sandbox. */
  lemma PermitAdmits(c: Config, f: Flight, response: Option<string>, a: Answers)
    requires a.decision.Answered? && a.hook.Answered? && Answerable(response) && LetsThrough(c, response, a)
    requires Prompts(c, response, a) ==> a.prompt.Answered?
    ensures var f0 := NoteIf(f, Prompts(c, response, a), "approval_prompted");
            var asks := a.decision.value.effect == Ask && response.None?;
            Permit(c, f, a.decision.value, a.hook.value, asks, response, a) ==
            Admit(c, f0.(live := Note(f0.live, "permission_decision")), a.decision.value, a)
  {
    FinalIs(c, response, a);
    hide Admit, FinalEffect, RecordStatus, LetsThrough, Refuses, FinalOf;
  }

  lemma PermitEnds(c: Config, f: Flight, response: Option<string>, a: Answers)
    requires Answerable(response) && BindsOwnRun(f.live.session.runId, a)
    requires a.decision.Answered? && a.hook.Answered?
    requires f.call.status == if a.decision.value.effect == Ask then AwaitingApproval else Entry(response)
    ensures var asks := a.decision.value.effect == Ask && response.None?;
            Ends(c, f, response, a, Permit(c, f, a.decision.value, a.hook.value, asks, response, a),
                 PermittingTrail(c, f.live.session.runId, response, a)
                 + (AdmittingTrail(c, f.live.session.runId, response, a)
                    + PerformingTrail(c, f.live.session.runId, f.call.callId, response, a)))
  {
    var runId, id, decision := f.live.session.runId, f.call.callId, a.decision.value;
    var prompts := Prompts(c, response, a);
    var f0 := NoteIf(f, prompts, "approval_prompted");
    var f1 := f0.(live := Note(f0.live, "permission_decision"));
    var prompted := When(prompts, Leaves(Noted(runId, "approval_prompted")));
    NoteMarked(f, prompts, "approval_prompted");
    EmitMarked(f0, Noted(runId, "permission_decision"));
    MarkedOn(f, f0, f1, prompted, [Leaves(Noted(runId, "permission_decision"))]);
    assert CallEdge(f1.call.status, PolicyDenied);
    hide Marked, RecordStatus, Admit, FinalEffect, Refuses, LetsThrough, LeavesOpen, Fate, LeftBy, Stalls, FinalOf;
    hide FactsOf, AdmittingTrail, PerformingTrail, MayRun, CallEdge, PermittingTrail;
    if !LetsThrough(c, response, a) {
      BarredEnds(c, f, f0, f1, response, a);
    } else {
      hide Ends;
      ThroughAnswered(c, response, a);
      FinalIs(c, response, a);
      OneOfThree(c, response, a);
      PermittingIs(c, runId, response, a);
      assert PermittingTrail(c, runId, response, a) == prompted + [Leaves(Noted(runId, "permission_decision"))];
      AdmitEnds(c, f1, response, decision, a);
      PermitAdmits(c, f, response, a);
      EndsOn(c, f, f1, response, a, Admit(c, f1, decision, a), PermittingTrail(c, runId, response, a),
             AdmittingTrail(c, runId, response, a) + PerformingTrail(c, runId, id, response, a));
    }
  }

  lemma ThroughAnswered(c: Config, response: Option<string>, a: Answers)
    requires LetsThrough(c, response, a)
    ensures Prompts(c, response, a) ==> a.prompt.Answered?
    ensures a.decision.value.effect != Deny
  {
  }

  /** The fate of every call: where the pipeline leaves it, what it writes on the way, in order,
      and what it hands back. */
  lemma CallEnds(c: Config, f: Flight, arguments: Arguments, response: Option<string>, a: Answers)
    requires Answerable(response) && BindsOwnRun(f.live.session.runId, a) && f.call.status == Entry(response)
    ensures Ends(c, f, response, a, RunTool(c, f, arguments, response, a),
                 Trail(c, f.live.session.runId, f.call, arguments, response, a))
  {
    var runId, id := f.live.session.runId, f.call.callId;
    var intent := ToolIntent(runId, id, f.call.toolName, arguments);
    var f0 := f.(live := Emit(f.live, intent));
    EmitMarked(f, intent);
    if a.decision.Raises? || a.hook.Raises? {
      return;
    }
    hide Marked, RecordStatus, Permit, Refuses, LetsThrough, LeavesOpen, Fate, LeftBy, Stalls, FinalOf, Ends;
    hide FactsOf, AdmittingTrail, PerformingTrail, MayRun, PermittingTrail;
    var hooked := a.hook.value.hookId.Some?;
    var asks := a.decision.value.effect == Ask && response.None?;
    var f1 := NoteIf(f0, hooked, "hook_decision");
    var hook := When(hooked, Leaves(Noted(runId, "hook_decision")));
    NoteMarked(f0, hooked, "hook_decision");
    MarkedOn(f, f0, f1, [Leaves(intent)], hook);
    RecordRuns(c, f1, AwaitingApproval);
    var f2 := if asks then RecordStatus(c, f1, AwaitingApproval).value else f1;
    if asks {
      RecordMarked(c, f1, AwaitingApproval);
    } else {
      NotMarked(f1);
    }
    MarkedOn(f, f1, f2, [Leaves(intent)] + hook, When(asks, Moves(AwaitingApproval)));
    PermitEnds(c, f2, response, a);
    EndsOn(c, f, f2, response, a, RunTool(c, f, arguments, response, a),
           DecidingTrail(runId, f.call, arguments, response, a),
           PermittingTrail(c, runId, response, a)
           + (AdmittingTrail(c, runId, response, a) + PerformingTrail(c, runId, id, response, a)));
    Associates(DecidingTrail(runId, f.call, arguments, response, a), PermittingTrail(c, runId, response, a),
               AdmittingTrail(c, runId, response, a), PerformingTrail(c, runId, id, response, a));
  }

  lemma Associates(a: seq<Mark>, b: seq<Mark>, c: seq<Mark>, d: seq<Mark>)
    ensures a + b + c + d == a + (b + (c + d))
  {
  }

  // ----- The session, once the call has landed -----

  /** The session fails where a port or the lifecycle raises; else it waits exactly while a
      call does. */
  function StatusAfter(fails: bool, pending: set<string>): SessionStatus {
    if fails then Failed else if pending == {} then Running else WaitingApproval
  }

  /** What the calls, the session, the facts and the log of a session are after a call. */
  predicate Lands(c: Config, l: Live, m: Live, call: SessionToolCall, response: Option<string>, a: Answers,
                  fails: bool, marks: seq<Mark>)
  {
    && Rebuilt(l).Some? && Rebuilt(m).Some? && call.status == Fate(c, response, a)
    && Rebuilt(m).value.calls == Rebuilt(l).value.calls[call.callId := call]
    && Rebuilt(m).value.session == Some(m.session)
    && m.session.status == StatusAfter(fails, m.pending)
    && m.pending == (if call.status == AwaitingApproval then l.pending + {call.callId} else l.pending - {call.callId})
    && m.facts == l.facts + (if fails then [] else FactsOf(c, response, a))
    && MarksOf(m.log) == MarksOf(l.log) + marks
  }

  lemma GoesOn(l: Live)
    requires Agreed(l) && Accepting(l)
    ensures l.session.status == StatusAfter(false, l.pending)
  {
    AgreedKnows(l);
    hide Agreed;
  }

  lemma FailedMarks(c: Config, l: Live)
    requires Agreed(l) && Accepting(l)
    ensures var m := FailSession(c, l);
            && MarksOf(m.log) == MarksOf(l.log) && m.facts == l.facts && m.pending == l.pending
            && Rebuilt(m).Some? && Rebuilt(m).value.calls == Rebuilt(l).value.calls
            && Grants(m) == Grants(l) && m.session.status == Failed && Rebuilt(m).value.session == Some(m.session)
            && m.sequence == l.sequence && m.blocked == l.blocked
  {
    hide MarksOf, Grants, Fold;
    FailKeeps(c, l);
    AgreedKnows(FailSession(c, l));
    SessionUnmarked(c, l, Failed);
    var parts := AgreedTransition(c, l);
  }

  lemma AgreedTransition(c: Config, l: Live) returns (m: Live)
    requires Agreed(l) && Accepting(l)
    ensures m == FailSession(c, l) && m == l.(session := m.session, log := m.log)
    ensures Rebuilt(m).Some? && Rebuilt(m).value.calls == Rebuilt(l).value.calls
  {
    TransitionKeeps(c, l, Failed);
    m := TransitionSession(c, l, Failed);
  }

  /** A flight that lands, from the session before the call on. */
  lemma LandsAs(c: Config, l: Live, r: Ran, response: Option<string>, a: Answers, marks: seq<Mark>)
    requires Rebuilt(l).Some? && l.pending == Waiting(Rebuilt(l).value.calls)
    requires Agreed(Credited(r).live) && Accepting(Credited(r).live)
    requires Rebuilt(Credited(r).live).value.calls == Rebuilt(l).value.calls[r.flight.call.callId := r.flight.call]
    requires r.flight.call.status == Fate(c, response, a)
    requires r.ending.Returned? ==> r.ending.facts == FactsOf(c, response, a)
    requires r.flight.live.facts == l.facts && MarksOf(r.flight.live.log) == MarksOf(l.log) + marks
    ensures Lands(c, l, Land(c, r).live, r.flight.call, response, a, !r.ending.Returned?, marks)
    ensures Grants(Land(c, r).live) == Grants(Credited(r).live)
    ensures Land(c, r).outcome == if r.ending.Returned? then Finished(r.flight.call, r.ending.final, None)
                                  else Raised(r.ending.LifecycleRaised?)
  {
    var m := Credited(r).live;
    AgreedKnows(m);
    WaitingAfter(Rebuilt(l).value.calls, r.flight.call);
    GoesOn(m);
    hide Agreed, Fold, MarksOf, Fate, FactsOf, FailSession, Waiting, Grants;
    if !r.ending.Returned? {
      FailedMarks(c, m);
      assert l.facts + [] == l.facts;
    }
  }

  // ----- A fresh call -----

  /** The request an open call leaves, if one can be made of it: the approval binds the call,
      its tool and its arguments, and ends after the lifetime the policy gives. */
  predicate Requestable(c: Config, decision: PermissionDecision, a: Answers) {
    && (c.ttlSeconds.Some? ==> c.ttlSeconds.value > 0)
    && !Blank(a.approvalId) && !Blank(decision.reason) && OptionalText(decision.ruleId)
  }

  function RequestOf(c: Config, call: SessionToolCall, decision: PermissionDecision, a: Answers, at: int)
    : ApprovalRequest
  {
    ApprovalRequest(a.approvalId, call.runId, call.callId, call.toolName, call.digest, a.preview, decision.ruleId,
                    decision.reason, At(at), if c.ttlSeconds.Some? then Some(At(at + c.ttlSeconds.value)) else None,
                    Pending)
  }

  /** The calls while a fresh one is under way. */
  lemma FreshCalls(c: Config, l: Live, toolName: string, arguments: Arguments, a: Answers)
    requires Agreed(l) && Accepting(l) && !Blank(toolName)
    ensures var r := Launch(c, l, toolName, arguments, a);
            && Agreed(Credited(r).live) && Accepting(Credited(r).live)
            && Rebuilt(Credited(r).live).value.calls == Rebuilt(l).value.calls[r.flight.call.callId := r.flight.call]
  {
    hide Agreed, Fold, Launch, Opened;
    OpenedInFlight(c, l, toolName, arguments);
    LaunchKeeps(c, l, toolName, arguments, a);
    OnwardCalls(Opened(c, l, toolName, arguments), Credited(Launch(c, l, toolName, arguments, a)));
  }

  lemma OnwardCalls(f: Flight, g: Flight)
    requires Onward(f, g)
    ensures Rebuilt(f.live).Some? && Agreed(g.live) && Accepting(g.live) && g.call.callId == f.call.callId
    ensures Rebuilt(g.live).value.calls == Rebuilt(f.live).value.calls[g.call.callId := g.call]
    ensures Grants(g.live) == Grants(f.live)
  {
    hide Agreed, Fold;
  }

  lemma LandAgrees(c: Config, r: Ran)
    requires Agreed(Credited(r).live) && Accepting(Credited(r).live)
    ensures Agreed(Land(c, r).live)
  {
    AgreedKnows(Credited(r).live);
    hide Agreed, Land, CallsKept, Credited;
    LandKeeps(c, Credited(r).live, r, None);
  }

  lemma FreshLands(c: Config, l: Live, toolName: string, arguments: Arguments, a: Answers)
    requires Agreed(l) && Accepting(l) && !Blank(toolName) && BindsOwnRun(l.session.runId, a)
    ensures var call := NewCall(c, l.(sequence := l.sequence + 1), toolName, arguments);
            var r := Launch(c, l, toolName, arguments, a);
            && SameCall(r.flight.call, call) && r.flight.call.callId == CallId(l.sequence + 1)
            && Lands(c, l, Land(c, r).live, r.flight.call, None, a, LeftBy(c, None, a).Some?,
                     [Leaves(ToolCallRequested(call))] + Trail(c, l.session.runId, call, arguments, None, a))
            && Grants(Land(c, r).live) == Grants(l)
            && !Asked(Grants(l), r.flight.call.callId)
            && Agreed(Land(c, r).live)
            && (r.ending.PortRaised? <==> LeftBy(c, None, a).Some?) && !r.ending.LifecycleRaised?
            && (r.ending.Returned? ==>
                  && a.decision == Answered(r.ending.decision)
                  && Land(c, r).outcome == Finished(r.flight.call, FinalOf(c, None, a), None))
            && (!r.ending.Returned? ==> Land(c, r).outcome == Raised(false))
  {
    var call := NewCall(c, l.(sequence := l.sequence + 1), toolName, arguments);
    var r := Launch(c, l, toolName, arguments, a);
    hide Agreed, Fold, MarksOf, Fate, LeftBy, FinalOf, FactsOf, Trail, CallId, Launch, Land, Asked, Lands, Credited;
    hide CallsKept, NewCall;
    LaunchEnds(c, l, toolName, arguments, a);
    FreshCalls(c, l, toolName, arguments, a);
    FreshFlight(c, l, toolName, arguments, a);
    AgreedKnows(l);
    LandsAs(c, l, r, None, a,
            [Leaves(ToolCallRequested(call))] + Trail(c, l.session.runId, call, arguments, None, a));
    LandAgrees(c, r);
  }

  lemma LaunchEnds(c: Config, l: Live, toolName: string, arguments: Arguments, a: Answers)
    requires BindsOwnRun(l.session.runId, a)
    ensures var call := NewCall(c, l.(sequence := l.sequence + 1), toolName, arguments);
            var r := Launch(c, l, toolName, arguments, a);
            && SameCall(r.flight.call, call) && call.callId == CallId(l.sequence + 1)
            && r.flight.call.status == Fate(c, None, a) && r.flight.live.facts == l.facts
            && MarksOf(r.flight.live.log) ==
               MarksOf(l.log)
               + ([Leaves(ToolCallRequested(call))] + Trail(c, l.session.runId, call, arguments, None, a))
            && (r.ending.PortRaised? <==> LeftBy(c, None, a).Some?) && !r.ending.LifecycleRaised?
            && (r.ending.Returned? ==>
                  && a.decision == Answered(r.ending.decision)
                  && r.ending.final == FinalOf(c, None, a) && r.ending.facts == FactsOf(c, None, a))
  {
    var l0 := l.(sequence := l.sequence + 1);
    var call := NewCall(c, l0, toolName, arguments);
    var f := Flight(Emit(l0, ToolCallRequested(call)), call);
    assert call.callId == CallId(l.sequence + 1) && call.status == Requested;
    assert !Stalls(c, None, a);
    hide MarksOf, RunTool, Fate, LeftBy, FinalOf, FactsOf, Trail, CallId, Stalls, NewCall, Marked, SameCall;
    hide BindsOwnRun;
    CallEnds(c, f, arguments, None, a);
    AfterRequest(l, f, RunTool(c, f, arguments, None, a).flight, Trail(c, l.session.runId, call, arguments, None, a));
  }

  lemma AfterRequest(l: Live, f: Flight, g: Flight, trail: seq<Mark>)
    requires f.live.facts == l.facts && f.live.log == l.log + [ToolCallRequested(f.call)] && Marked(f, g, trail)
    ensures SameCall(g.call, f.call) && g.live.facts == l.facts
    ensures MarksOf(g.live.log) == MarksOf(l.log) + ([Leaves(ToolCallRequested(f.call))] + trail)
  {
    MarksSnoc(l.log, ToolCallRequested(f.call));
    hide MarksOf;
  }

  lemma NewApprovalIs(c: Config, l: Live, call: SessionToolCall, decision: PermissionDecision, a: Answers)
    requires call.runId == l.session.runId && !Blank(call.runId) && !Blank(call.callId) && !Blank(call.toolName)
    requires call.digest.OfArguments?
    ensures NewApproval(c, l, call, decision, a) ==
            if Requestable(c, decision, a) then Some(RequestOf(c, call, decision, a, c.clock(|l.log|))) else None
  {
    hide Blank;
  }

  lemma SameRequest(c: Config, call: SessionToolCall, other: SessionToolCall, decision: PermissionDecision, a: Answers,
                    at: int)
    requires SameCall(call, other)
    ensures RequestOf(c, call, decision, a, at) == RequestOf(c, other, decision, a, at)
  {
  }

  /** The request is recorded in a session that goes on as it was. */
  lemma RequestLands(c: Config, l: Live, m: Live, call: SessionToolCall, a: Answers, request: ApprovalRequest,
                     marks: seq<Mark>)
    requires Agreed(m) && Lands(c, l, m, call, None, a, false, marks)
    requires Step(m.session.runId, Rebuilt(m).value, ApprovalRequested(request)) ==
             Some(Rebuilt(m).value.(approvals := Rebuilt(m).value.approvals[request.approvalId := request]))
    ensures var m' := Emit(m, ApprovalRequested(request));
            && Lands(c, l, m', call, None, a, false, marks + [Leaves(ApprovalRequested(request))])
            && Grants(m') == Grants(m)[request.approvalId := request]
  {
    hide Agreed, Fold, Step, MarksOf, Fate, FactsOf, Lands;
    RequestRecorded(m, request);
    AgreedKnows(m);
    MarksSnoc(m.log, ApprovalRequested(request));
    LandsMore(c, l, m, Emit(m, ApprovalRequested(request)), call, a, marks, [Leaves(ApprovalRequested(request))]);
  }

  lemma LandsMore(c: Config, l: Live, m: Live, m': Live, call: SessionToolCall, a: Answers, marks: seq<Mark>,
                  more: seq<Mark>)
    requires Lands(c, l, m, call, None, a, false, marks) && m' == m.(log := m'.log)
    requires Rebuilt(m').Some? && Rebuilt(m').value.calls == Rebuilt(m).value.calls
    requires Rebuilt(m').value.session == Rebuilt(m).value.session && MarksOf(m'.log) == MarksOf(m.log) + more
    ensures Lands(c, l, m', call, None, a, false, marks + more)
  {
    hide Rebuilt, MarksOf, Fate, FactsOf;
  }

  lemma OpenIsLeft(c: Config, response: Option<string>, a: Answers)
    requires Answerable(response)
    ensures LeavesOpen(c, response, a) ==> LeftBy(c, response, a).None? && Fate(c, response, a) == AwaitingApproval
    ensures LeavesOpen(c, response, a) <==> LeftBy(c, response, a).None? && FinalOf(c, response, a) == Ask
  {
  }

  /** A fresh call, whatever its ports answer: the status it is left in, the session's status,
      the facts, the whole trail, and the approval request exactly if it is left open and one
      can be made. */
  lemma ExecuteEnds(c: Config, l: Live, toolName: string, arguments: Arguments, a: Answers)
    returns (call: SessionToolCall)
    requires Agreed(l) && Accepting(l) && !Blank(toolName) && a.approvalId !in Grants(l)
    requires BindsOwnRun(l.session.runId, a)
    ensures var requested := NewCall(c, l.(sequence := l.sequence + 1), toolName, arguments);
            var t := Execute(c, l, toolName, arguments, a);
            var fails := LeftBy(c, None, a).Some?;
            var asks := LeavesOpen(c, None, a) && Requestable(c, a.decision.value, a);
            && SameCall(call, requested) && call.callId == CallId(l.sequence + 1)
            && Lands(c, l, t.live, call, None, a, fails,
                     [Leaves(ToolCallRequested(requested))]
                     + Trail(c, l.session.runId, requested, arguments, None, a)
                     + (if asks then [Leaves(ApprovalRequested(Asking(c, t.live, requested, a)))] else []))
            && Grants(t.live) ==
               (if asks then Grants(l)[a.approvalId := Asking(c, t.live, requested, a)] else Grants(l))
            && t.outcome == if fails || (LeavesOpen(c, None, a) && !asks) then Raised(false)
                            else Finished(call, FinalOf(c, None, a),
                                          if asks then Some(Asking(c, t.live, requested, a)) else None)
  {
    var requested := NewCall(c, l.(sequence := l.sequence + 1), toolName, arguments);
    var r := Launch(c, l, toolName, arguments, a);
    var m := Land(c, r).live;
    call := r.flight.call;
    var marks := [Leaves(ToolCallRequested(requested))] + Trail(c, l.session.runId, requested, arguments, None, a);
    hide Agreed, Fold, MarksOf, Fate, LeftBy, FinalOf, FactsOf, Trail, CallId, Launch, Land, Asked, Lands, When;
    hide NewCall, LeavesOpen, NewApproval, Requestable, RequestOf, Step, SameCall, Execute, Rebuilt, Grants, Asking;
    FreshLands(c, l, toolName, arguments, a);
    OpenIsLeft(c, None, a);
    ExecuteIs(c, l, toolName, arguments, a);
    NothingMore(marks);
    if LeavesOpen(c, None, a) {
      LandedNames(c, l, toolName, arguments, a);
      RequestedAsMade(c, l, m, call, requested, a, marks);
    }
  }

  lemma NothingMore(marks: seq<Mark>)
    ensures marks + [] == marks
  {
  }

  lemma LandedNames(c: Config, l: Live, toolName: string, arguments: Arguments, a: Answers)
    requires Agreed(l) && Accepting(l) && !Blank(toolName) && BindsOwnRun(l.session.runId, a)
    ensures var r := Launch(c, l, toolName, arguments, a);
            var call := r.flight.call;
            && call.runId == Land(c, r).live.session.runId && call.digest.OfArguments?
            && !Blank(call.callId) && !Blank(call.toolName)
  {
    hide Agreed, Launch, Trail, MarksOf, Fate, LeftBy, FinalOf, FactsOf, CallId, Fold, CallsKept, Asked, Land;
    LaunchEnds(c, l, toolName, arguments, a);
    FreshFlight(c, l, toolName, arguments, a);
    var r := Launch(c, l, toolName, arguments, a);
    AgreedKnows(Credited(r).live);
    LandKeeps(c, Credited(r).live, r, None);
  }

  lemma ExecuteIs(c: Config, l: Live, toolName: string, arguments: Arguments, a: Answers)
    requires Accepting(l) && !Blank(toolName)
    ensures var r := Launch(c, l, toolName, arguments, a);
            var t := Land(c, r);
            Execute(c, l, toolName, arguments, a) ==
            if t.outcome.Finished? && t.outcome.final == Ask && r.ending.Returned? then
              var request := NewApproval(c, t.live, t.outcome.call, r.ending.decision, a);
              if request.None? then t.(outcome := Raised(false))
              else Turn(Emit(t.live, ApprovalRequested(request.value)), t.outcome.(request := request))
            else t
  {
    hide Launch, NewApproval, FailSession;
  }

  /** A call left open, and its request. */
  lemma RequestedAsMade(c: Config, l: Live, m: Live, call: SessionToolCall, requested: SessionToolCall, a: Answers,
                        marks: seq<Mark>)
    requires Agreed(m) && Lands(c, l, m, call, None, a, false, marks) && a.decision.Answered?
    requires SameCall(call, requested) && call.runId == m.session.runId && call.digest.OfArguments?
    requires !Blank(call.callId) && !Blank(call.toolName)
    requires !Asked(Grants(m), call.callId) && a.approvalId !in Grants(m)
    ensures var made := NewApproval(c, m, call, a.decision.value, a);
            if Requestable(c, a.decision.value, a) then
              var m' := Emit(m, ApprovalRequested(made.value));
              && made == Some(Asking(c, m', requested, a))
              && Lands(c, l, m', call, None, a, false, marks + [Leaves(ApprovalRequested(made.value))])
              && Grants(m') == Grants(m)[a.approvalId := made.value]
            else made.None?
  {
    hide Agreed, Fold, Lands, Asked, NewApproval, Requestable, Rebuilt, Grants;
    AgreedNames(m);
    NewApprovalIs(c, m, call, a.decision.value, a);
    SameRequest(c, call, requested, a.decision.value, a, c.clock(|m.log|));
    if Requestable(c, a.decision.value, a) {
      RequestAccepted(c, l, m, call, a, marks);
    }
  }

  /** The request, written as the last event. */
  function Asking(c: Config, l: Live, call: SessionToolCall, a: Answers): ApprovalRequest
    requires a.decision.Answered?
  {
    RequestOf(c, call, a.decision.value, a, c.clock(if l.log == [] then 0 else |l.log| - 1))
  }

  lemma AgreedNames(l: Live)
    requires Agreed(l)
    ensures !Blank(l.session.runId)
  {
    hide Recorded, Fold;
  }

  lemma RequestAccepted(c: Config, l: Live, m: Live, call: SessionToolCall, a: Answers, marks: seq<Mark>)
    requires Agreed(m) && Lands(c, l, m, call, None, a, false, marks) && a.decision.Answered?
    requires !Asked(Grants(m), call.callId) && a.approvalId !in Grants(m)
    requires NewApproval(c, m, call, a.decision.value, a).Some?
    ensures var request := NewApproval(c, m, call, a.decision.value, a).value;
            var m' := Emit(m, ApprovalRequested(request));
            && Lands(c, l, m', call, None, a, false, marks + [Leaves(ApprovalRequested(request))])
            && Grants(m') == Grants(m)[request.approvalId := request]
  {
    hide Agreed, Fold, MarksOf, Fate, FactsOf, Asked, NewApproval, AcceptsApproval, Step;
    NamedAndAccepted(c, m, call, a.decision.value, a);
    var request := NewApproval(c, m, call, a.decision.value, a).value;
    RequestSteps(m.session.runId, Rebuilt(m).value, request);
    RequestLands(c, l, m, call, a, request, marks);
  }

  // ----- A resumed call -----

  lemma ResumedCalls(c: Config, l: Live, call: SessionToolCall, arguments: Arguments, response: string, a: Answers)
    requires Agreed(l) && l.session.status == WaitingApproval && call.status == AwaitingApproval
    requires call.callId in Rebuilt(l).value.calls && Rebuilt(l).value.calls[call.callId] == call
    requires Rebuilt(l).value.arguments[call.callId] == arguments && response in {"approve", "deny"}
    requires response == "approve" ==> Cleared(Grants(l), call.callId)
    ensures var r := RunTool(c, Flight(l, call), arguments, Some(response), a);
            && Agreed(Credited(r).live) && Accepting(Credited(r).live) && r.flight.call.callId == call.callId
            && Rebuilt(Credited(r).live).value.calls == Rebuilt(l).value.calls[call.callId := r.flight.call]
            && Grants(Credited(r).live) == Grants(l)
  {
    hide Agreed, Fold, RunTool, Cleared;
    ResumedInFlight(l, call, arguments);
    var f := Flight(l, call);
    RunToolKeeps(c, f, arguments, Some(response), a);
    OnwardCalls(WithIntent(f, arguments), Credited(RunTool(c, f, arguments, Some(response), a)));
  }

  /** The same for a call that is resumed: a grant or a denial is its answer. */
  lemma ResumeEnds(c: Config, l: Live, o: Offer, response: string, a: Answers) returns (call: SessionToolCall)
    requires Agreed(l) && Resumes(l, o) && response in {"approve", "deny"} && BindsOwnRun(l.session.runId, a)
    requires o.call.callId in Rebuilt(l).value.calls && Rebuilt(l).value.calls[o.call.callId] == o.call
    requires Rebuilt(l).value.arguments[o.call.callId] == o.arguments
    requires response == "approve" ==> Cleared(Grants(l), o.call.callId)
    ensures var t := ResumeCall(c, l, o.call, o.arguments, response, a);
            var stalls := Stalls(c, Some(response), a);
            var fails := LeftBy(c, Some(response), a).Some? || stalls;
            && SameCall(call, o.call)
            && Lands(c, l, t.live, call, Some(response), a, fails,
                     Trail(c, l.session.runId, o.call, o.arguments, Some(response), a))
            && Grants(t.live) == Grants(l)
            && t.outcome == if fails then Raised(stalls) else Finished(call, FinalOf(c, Some(response), a), None)
  {
    var f := Flight(l, o.call);
    var r := RunTool(c, f, o.arguments, Some(response), a);
    call := r.flight.call;
    hide Agreed, Fold, MarksOf, Fate, LeftBy, FinalOf, FactsOf, Trail, RunTool, Land, Lands, Stalls, Cleared;
    CallEnds(c, f, o.arguments, Some(response), a);
    ResumedCalls(c, l, o.call, o.arguments, response, a);
    AgreedKnows(l);
    LandsAs(c, l, r, Some(response), a, Trail(c, l.session.runId, o.call, o.arguments, Some(response), a));
  }

  /** What the fate of a call that returns says of the answers, and the other way round. */
  lemma FateIff(c: Config, response: Option<string>, a: Answers)
    requires Answerable(response) && LeftBy(c, response, a).None? && !Stalls(c, response, a)
    ensures Fate(c, response, a) == PolicyDenied <==> Refuses(c, response, a)
    ensures Fate(c, response, a) == AwaitingApproval <==> LeavesOpen(c, response, a)
    ensures Fate(c, response, a) == SandboxDenied <==> LetsThrough(c, response, a) && a.sandboxAllows == Answered(false)
    ensures Fate(c, response, a) == Succeeded <==>
              MayRun(c, response, a) && a.result.Answered? && a.result.value.ok
    ensures Fate(c, response, a) == CallFailed <==>
              MayRun(c, response, a) && a.result.Answered? && !a.result.value.ok
    ensures FinalOf(c, response, a) == Deny <==> Fate(c, response, a) == PolicyDenied
    ensures FinalOf(c, response, a) == Ask <==> Fate(c, response, a) == AwaitingApproval
  {
    if LetsThrough(c, response, a) {
      ThroughAnswered(c, response, a);
      OneOfThree(c, response, a);
      if MayRun(c, response, a) {
        RunningFate(c, response, a);
      } else {
        ThroughFate(c, response, a);
      }
    } else {
      BarredFate(c, response, a);
    }
  }
}
