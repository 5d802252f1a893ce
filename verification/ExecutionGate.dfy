/** What it takes for the executor to run, and how a raising port leaves a call. */
module ExecutionGate {
  import opened Texts
  import opened Lifecycle
  import opened Entities
  import opened Replay
  import opened ReplaySoundness
  import opened Pipeline
  import opened Agreement
  import opened CrashConsistency
  import opened Interleavings
  import opened Lifetimes
  import opened LifetimeProofs
  import opened Histories

  // ----- One call -----

  /** Policy and approver let the call through: a fresh call is allowed outright, or asks and
      is approved at the prompt or by the mock approver; a resumed one asks again and was
      answered "approve". */
  predicate Approves(c: Config, effect: Effect, response: Option<string>, a: Answers) {
    if response.Some? then effect == Ask && response == Some("approve")
    else
      || effect == Allow
      || (effect == Ask && c.approvalMode == Mock)
      || (effect == Ask && c.approvalMode == InlinePrompt && c.canPrompt && a.prompt == Answered("approve"))
  }

  /** Everything that has to agree before the executor runs. */
  predicate MayRun(c: Config, response: Option<string>, a: Answers) {
    && a.decision.Answered? && a.hook.Answered? && !a.hook.value.denies
    && Approves(c, a.decision.value.effect, response, a)
    && a.sandboxAllows == Answered(true) && a.backedUp.Answered?
  }

  /** The status in which a call enters the pipeline. */
  function Entry(response: Option<string>): CallStatus {
    if response.None? then Requested else AwaitingApproval
  }

  predicate Answerable(response: Option<string>) {
    response.Some? ==> response.value in {"approve", "deny"}
  }

  /** The status in which the sandbox finds an allowed call. */
  function Admitted(effect: Effect, response: Option<string>): CallStatus {
    if effect == Ask then Approved else Entry(response)
  }

  /** The status in which a raising port leaves the call; None where no port raises, or none
      is asked any more. */
  function LeftBy(c: Config, response: Option<string>, a: Answers): Option<CallStatus> {
    if a.decision.Raises? || a.hook.Raises? then Some(Entry(response))
    else
      var effect := a.decision.value.effect;
      var prompts := effect == Ask && response.None? && c.approvalMode == InlinePrompt && c.canPrompt
                     && !a.hook.value.denies;
      if prompts && a.prompt.Raises? then Some(AwaitingApproval)
      else if a.hook.value.denies || !(effect == Allow || Approves(c, effect, response, a)) then None
      else if a.sandboxAllows.Raises? || (a.sandboxAllows.value && a.backedUp.Raises?) then
        Some(Admitted(effect, response))
      else if !MayRun(c, response, a) then None
      else if a.result.Raises? then Some(CallFailed)
      else if a.result.value.ok && a.backedUp.value && a.bound.Raises? then Some(Executing)
      else if a.mapped.Raises? || (a.mapped.value != [] && a.stored.Raises?) then
        Some(if a.result.value.ok then Succeeded else CallFailed)
      else None
  }

  /** A restore point bound for another run would be refused by the recorder; the adapter
      binds none. */
  predicate BindsOwnRun(runId: string, a: Answers) {
    a.bound.Answered? && a.bound.value.Some? ==> a.bound.value.value.runId == runId
  }

  lemma RecordRuns(c: Config, f: Flight, status: CallStatus)
    ensures RecordStatus(c, f, status).Some? <==> CallEdge(f.call.status, status)
    ensures RecordStatus(c, f, status).Some? ==>
              var g := RecordStatus(c, f, status).value;
              && g.live.runs == f.live.runs && g.call.status == status
              && g.live.session.runId == f.live.session.runId
  {
    hide CallEdge;
  }

  lemma PerformRuns(c: Config, f: Flight, response: Option<string>, decision: PermissionDecision, a: Answers)
    requires f.call.status == Executing && BindsOwnRun(f.live.session.runId, a)
    requires MayRun(c, response, a)
    ensures var r := Perform(c, f, decision, a);
            && r.flight.live.runs == f.live.runs
            && (r.ending.PortRaised? <==> LeftBy(c, response, a).Some?)
            && (r.ending.PortRaised? ==> r.flight.call.status == LeftBy(c, response, a).value)
  {
    hide RecordStatus;
    if a.result.Raises? {
      RecordRuns(c, f, CallFailed);
    } else {
      var f0 := f.(live := Emit(f.live, ToolResulted(f.live.session.runId, f.call.callId, a.result.value.ok,
                                                     a.result.value.output)));
      var status := if a.result.value.ok then Succeeded else CallFailed;
      RecordRuns(c, f0, status);
      if a.backedUp == Answered(true) && a.result.value.ok && a.bound.Answered? && a.bound.value.Some? {
        RecordRuns(c, f0.(live := Emit(f0.live, WriteCheckpointed(a.bound.value.value))), status);
      }
    }
  }

  /** What the pipeline does with the executor, and where it stops if a port raises. */
  predicate Gated(c: Config, runs: seq<nat>, r: Ran, response: Option<string>, a: Answers) {
    && runs <= r.flight.live.runs && |r.flight.live.runs| == |runs| + (if MayRun(c, response, a) then 1 else 0)
    && (r.ending.PortRaised? <==> LeftBy(c, response, a).Some?)
    && (r.ending.PortRaised? ==> r.flight.call.status == LeftBy(c, response, a).value)
  }

  lemma AdmitIsGated(c: Config, f: Flight, response: Option<string>, decision: PermissionDecision, a: Answers)
    requires Answerable(response) && BindsOwnRun(f.live.session.runId, a)
    requires a.decision == Answered(decision) && a.hook.Answered? && !a.hook.value.denies
    requires decision.effect == Allow || Approves(c, decision.effect, response, a)
    requires f.call.status == if decision.effect == Ask then AwaitingApproval else Entry(response)
    ensures Gated(c, f.live.runs, Admit(c, f, decision, a), response, a)
  {
    hide RecordStatus, Perform, FinalEffect;
    RecordRuns(c, f, Approved);
    var f0 := if decision.effect == Ask then RecordStatus(c, f, Approved).value else f;
    var f1 := f0.(live := Note(f0.live, "sandbox_decision"));
    RecordRuns(c, f1, SandboxDenied);
    RecordRuns(c, f1, Executing);
    if MayRun(c, response, a) {
      var g := RecordStatus(c, f1, Executing).value;
      PerformRuns(c, g.(live := g.live.(runs := f1.live.runs + [|f1.live.log|])), response, decision, a);
    }
  }

  lemma PermitIsGated(c: Config, f: Flight, response: Option<string>, decision: PermissionDecision, hook: HookDecision,
                      a: Answers)
    requires Answerable(response) && BindsOwnRun(f.live.session.runId, a)
    requires a.decision == Answered(decision) && a.hook == Answered(hook)
    requires f.call.status == if decision.effect == Ask then AwaitingApproval else Entry(response)
    ensures var asks := decision.effect == Ask && response.None?;
            Gated(c, f.live.runs, Permit(c, f, decision, hook, asks, response, a), response, a)
  {
    hide RecordStatus, Admit, FinalEffect;
    var asks := decision.effect == Ask && response.None?;
    var prompts := asks && c.approvalMode == InlinePrompt && !hook.denies && c.canPrompt;
    if !(prompts && a.prompt.Raises?) {
      var answer := if prompts then Some(a.prompt.value) else response;
      AllowedIff(c.approvalMode, decision.effect, hook.denies, answer);
      var f0 := NoteIf(f, prompts, "approval_prompted");
      var f1 := f0.(live := Note(f0.live, "permission_decision"));
      RecordRuns(c, f1, PolicyDenied);
      if FinalEffect(c.approvalMode, decision.effect, hook.denies, answer) == Allow {
        AdmitIsGated(c, f1, response, decision, a);
      }
    }
  }

  /** The execution gate of one call: the executor runs exactly if policy, approver, hook,
      sandbox and backup all let it, and then once; and a port that raises leaves the call in
      exactly this status. */
  lemma CallIsGated(c: Config, f: Flight, arguments: Arguments, response: Option<string>, a: Answers)
    requires Answerable(response) && BindsOwnRun(f.live.session.runId, a) && f.call.status == Entry(response)
    ensures Gated(c, f.live.runs, RunTool(c, f, arguments, response, a), response, a)
  {
    hide RecordStatus, Permit, FinalEffect;
    if a.decision.Answered? && a.hook.Answered? {
      var intent := ToolIntent(f.live.session.runId, f.call.callId, f.call.toolName, arguments);
      var f1 := NoteIf(f.(live := Emit(f.live, intent)), a.hook.value.hookId.Some?, "hook_decision");
      RecordRuns(c, f1, AwaitingApproval);
      var asks := a.decision.value.effect == Ask && response.None?;
      var f2 := if asks then RecordStatus(c, f1, AwaitingApproval).value else f1;
      PermitIsGated(c, f2, response, a.decision.value, a.hook.value, a);
    }
  }

  /** A raise leaves a call unfinished exactly if it comes before the executor has run, or
      from binding the restore point after it. */
  lemma UnfinishedIff(c: Config, response: Option<string>, a: Answers)
    requires LeftBy(c, response, a).Some?
    ensures !CallOver(LeftBy(c, response, a).value) <==>
            || !MayRun(c, response, a)
            || (a.result.Answered? && a.result.value.ok && a.backedUp.value && a.bound.Raises?)
  {
  }

  // ----- Over a history -----

  /** The command takes up a call that the executor then runs. */
  predicate Permits(w: World, cmd: Command)
    decreases cmd
  {
    match cmd
    case Call(toolName, _, a) =>
      w.Open? && a.approvalId !in Grants(w.live) && Accepting(w.live) && !Blank(toolName) && MayRun(w.config, None, a)
    case ResumePending(callId, now, a) =>
      && w.Open? && callId in w.offers && Actionable(w.offers[callId].approval, now)
      && var offer := w.offers[callId];
         && Resumes(w.live, offer)
         && MayRun(w.config, Some(if offer.approval.verdict.Approval? then "approve" else "deny"), a)
    case Crash(during, _, _) => Permits(w, during)
    case Meanwhile(during, _, _) => Permits(w, during)
    case _ => false
  }

  predicate Resumes(l: Live, o: Offer) {
    && l.session.status == WaitingApproval && o.call.status == AwaitingApproval
    && OfArguments(o.arguments) == o.call.digest
  }

  /** Restore points are bound for the run they are made in. */
  predicate BindsItsRun(runId: string, cmd: Command)
    decreases cmd
  {
    match cmd
    case Call(_, _, a) => BindsOwnRun(runId, a)
    case ResumePending(_, _, a) => BindsOwnRun(runId, a)
    case Crash(during, _, _) => BindsItsRun(runId, during)
    case Meanwhile(during, _, _) => BindsItsRun(runId, during)
    case _ => true
  }

  lemma LandRuns(c: Config, ran: Ran)
    ensures Land(c, ran).live.runs == ran.flight.live.runs
  {
  }

  /** The executor's runs after: those before, and one more exactly if `more`. */
  predicate Extends(before: seq<nat>, after: seq<nat>, more: bool) {
    before <= after && |after| == |before| + (if more then 1 else 0)
  }

  lemma ExecuteRuns(c: Config, l: Live, toolName: string, arguments: Arguments, a: Answers)
    requires BindsOwnRun(l.session.runId, a)
    ensures Extends(l.runs, Execute(c, l, toolName, arguments, a).live.runs,
                    Accepting(l) && !Blank(toolName) && MayRun(c, None, a))
  {
    if Accepting(l) && !Blank(toolName) {
      var l0 := l.(sequence := l.sequence + 1);
      var call := NewCall(c, l0, toolName, arguments);
      var f := Flight(Emit(l0, ToolCallRequested(call)), call);
      CallIsGated(c, f, arguments, None, a);
      hide RunTool, MayRun, LeftBy, NewApproval, Land;
      LandRuns(c, RunTool(c, f, arguments, None, a));
    }
  }

  lemma ResumeRuns(c: Config, l: Live, o: Offer, response: string, a: Answers)
    requires BindsOwnRun(l.session.runId, a) && response in {"approve", "deny"}
    ensures Extends(l.runs, ResumeCall(c, l, o.call, o.arguments, response, a).live.runs,
                    Resumes(l, o) && MayRun(c, Some(response), a))
  {
    if Resumes(l, o) {
      CallIsGated(c, Flight(l, o.call), o.arguments, Some(response), a);
      hide RunTool, MayRun, LeftBy, Land;
      LandRuns(c, RunTool(c, Flight(l, o.call), o.arguments, Some(response), a));
    }
  }

  lemma PassiveRuns(c: Config, l: Live, raised: bool, timedOut: bool, verified: bool)
    ensures Leave(c, l, raised, timedOut).runs == l.runs && TimeOut(c, l).runs == l.runs
    ensures AnswerFinally(c, l, verified).Some? ==> AnswerFinally(c, l, verified).value.runs == l.runs
  {
  }

  /** Every run of the executor is after an event of the log. */
  predicate RunsLogged(w: World) {
    forall j | 0 <= j < |RunsOf(w)| :: RunsOf(w)[j] < |LogOf(w)|
  }

  lemma IntactRunsAreLogged(w: World)
    requires Intact(w)
    ensures RunsLogged(w)
  {
    LawfulIsSound(w);
    hide Intact, Sound;
  }

  lemma MeanwhileRuns(w: World, during: Command, at: nat, decision: Command)
    requires RunsLogged(w) ==> RunsOf(w) <= RunsOf(Next(w, during))
    ensures RunsLogged(w) ==> RunsOf(w) <= RunsOf(Next(w, Meanwhile(during, at, decision)))
    ensures |RunsOf(Next(w, Meanwhile(during, at, decision)))| == |RunsOf(Next(w, during))|
  {
    MeanwhileLeaves(w, during, at, decision);
    hide Next, Ruling, Misruled, Inserted;
  }

  /** One command runs the executor at most once, and exactly if it takes up a permitted call;
      a crash may come in between. */
  lemma {:induction false} NextRuns(w: World, cmd: Command)
    requires BindsItsRun(RunIdOf(w), cmd)
    ensures RunsLogged(w) ==> RunsOf(w) <= RunsOf(Next(w, cmd))
    ensures |RunsOf(w)| <= |RunsOf(Next(w, cmd))| <= |RunsOf(w)| + (if Permits(w, cmd) then 1 else 0)
    ensures Crashes(cmd) || |RunsOf(Next(w, cmd))| == |RunsOf(w)| + (if Permits(w, cmd) then 1 else 0)
    decreases cmd
  {
    hide Execute, ResumeCall, Leave, TimeOut, AnswerFinally, MayRun, Resumes, Restored, OffersOf, Replayed;
    hide Ruling, Cancelling, Resumable, Grants, BindsOwnRun;
    match cmd
    case Call(toolName, arguments, a) =>
      if w.Open? {
        ExecuteRuns(w.config, w.live, toolName, arguments, a);
      }
    case ResumePending(callId, now, a) =>
      if w.Open? && callId in w.offers {
        var offer := w.offers[callId];
        ResumeRuns(w.config, w.live, offer, if offer.approval.verdict.Approval? then "approve" else "deny", a);
      }
    case SubmitAnswer(verified) =>
      if w.Open? {
        PassiveRuns(w.config, w.live, false, false, verified);
      }
    case TimeUp =>
      if w.Open? {
        PassiveRuns(w.config, w.live, false, false, false);
      }
    case Exit(raised, timedOut) =>
      if w.Open? {
        PassiveRuns(w.config, w.live, raised, timedOut, false);
      }
    case Resume(config, callId, now) =>
      ResumedRuns(w, config, callId, now);
    case Crash(during, kept, runsKept) =>
      NextRuns(w, during);
      CrashLeaves(w, during, kept, runsKept);
    case Meanwhile(during, at, decision) =>
      NextRuns(w, during);
      MeanwhileRuns(w, during, at, decision);
    case _ =>
  }

  lemma ResumedRuns(w: World, config: Config, callId: string, now: int)
    ensures RunsOf(Next(w, Resume(config, callId, now))) == RunsOf(w)
  {
    hide Replayed, OffersOf, Resumable, LastSequence;
  }

  predicate BindItsRun(runId: string, history: seq<Command>) {
    forall i | 0 <= i < |history| :: BindsItsRun(runId, history[i])
  }

  /** Whoever works on a run, and however it crashes: each run of the executor was started by
      a command that policy, approver, hook, sandbox and backup let through, one run each. */
  lemma {:induction false} EveryRunWasPermitted(runId: string, history: seq<Command>, j: nat) returns (k: nat)
    requires BindItsRun(runId, history) && j < |RunsOf(After(Unborn(runId), history))|
    ensures k < |history| && Permits(After(Unborn(runId), history[..k]), history[k])
    ensures |RunsOf(After(Unborn(runId), history[..k]))| == j
    decreases |history|
  {
    assert history != [];
    var n := |history| - 1;
    var shorter := history[..n];
    var w := After(Unborn(runId), shorter);
    HistoryIntact(runId, shorter);
    hide Permits, Next, Intact;
    NextRuns(w, history[n]);
    if j < |RunsOf(w)| {
      k := EveryRunWasPermitted(runId, shorter, j);
      assert shorter[..k] == history[..k];
    } else {
      k := n;
    }
  }

  /** How many commands of a history take up a permitted call. */
  ghost function Permitted(runId: string, history: seq<Command>): nat {
    if history == [] then 0
    else
      var n := |history| - 1;
      Permitted(runId, history[..n]) + (if Permits(After(Unborn(runId), history[..n]), history[n]) then 1 else 0)
  }

  /** Without crashes the executor runs for every permitted call, and for nothing else. */
  lemma {:induction false} RunsAreThePermitted(runId: string, history: seq<Command>)
    requires BindItsRun(runId, history) && forall i | 0 <= i < |history| :: !Crashes(history[i])
    ensures |RunsOf(After(Unborn(runId), history))| == Permitted(runId, history)
  {
    if history != [] {
      var n := |history| - 1;
      RunsAreThePermitted(runId, history[..n]);
      HistoryIntact(runId, history[..n]);
      hide Permits, Next, Intact;
      NextRuns(After(Unborn(runId), history[..n]), history[n]);
    }
  }

  /** No run is ever undone: the runs so far stay the first ones, at their positions. */
  lemma {:induction false} RunsOnlyGrow(runId: string, history: seq<Command>, n: nat)
    requires BindItsRun(runId, history) && n <= |history|
    ensures RunsOf(After(Unborn(runId), history[..n])) <= RunsOf(After(Unborn(runId), history))
    decreases |history|
  {
    if n == |history| {
      assert history[..n] == history;
    } else {
      var shorter := history[..|history| - 1];
      var w := After(Unborn(runId), shorter);
      assert shorter[..n] == history[..n];
      HistoryIntact(runId, shorter);
      IntactRunsAreLogged(w);
      hide Permits, Next, Intact;
      RunsOnlyGrow(runId, shorter, n);
      NextRuns(w, history[|history| - 1]);
    }
  }

  /** Over every history: up to each run of the executor the log shows a path of the call
      table that ends in `executing`, and has `approved` on it if the call ever waited. */
  lemma WaitedRunsWereApproved(runId: string, history: seq<Command>, j: nat)
    requires j < |RunsOf(After(Unborn(runId), history))|
    ensures var w := After(Unborn(runId), history);
            var at := RunsOf(w)[j];
            && at < |LogOf(w)| && LogOf(w)[at].ToolCallStatusChanged?
            && var h := CallHistory(LogOf(w)[..at + 1], RunFor(w, j));
               && CallPath(h) && h != [] && h[|h| - 1] == Executing
               && (AwaitingApproval in h ==> Approved in h)
  {
    var w := After(Unborn(runId), history);
    hide After, Fold, CallHistory, SoundApproval;
    RunsOnlyWhatWasGranted(runId, history, j);
    var at := RunsOf(w)[j];
    CallHistoriesArePaths(runId, LogOf(w)[..at + 1], RunFor(w, j));
    var h := CallHistory(LogOf(w)[..at + 1], RunFor(w, j));
    if AwaitingApproval in h {
      var i :| 0 <= i < |h| && h[i] == AwaitingApproval;
      var m := WaitedThenApproved(h, i, |h| - 1);
    }
  }
}
