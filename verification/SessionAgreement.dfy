/** Every operation of a session keeps live and replayed state in agreement. */
module SessionAgreement {
  import opened Texts
  import opened Lifecycle
  import opened Entities
  import opened Replay
  import opened ReplaySoundness
  import opened Pipeline
  import opened Agreement

  /** While the session goes on each call is over or waits, and once it is completed each
      call is over. */
  predicate QuietState(st: RunState) {
    st.session.Some? ==>
      && (st.session.value.status in {Running, WaitingApproval} ==>
            forall id | id in st.calls :: CallOver(st.calls[id].status) || st.calls[id].status == AwaitingApproval)
      && (st.session.value.status == Completed ==>
            forall id | id in st.calls :: CallOver(st.calls[id].status))
  }

  predicate Quiet(l: Live) { Rebuilt(l).Some? && QuietState(Rebuilt(l).value) }

  /** Every call known to l, except one, is the same call with the same arguments in m. */
  predicate CallsKept(l: Live, m: Live, except: Option<string>) {
    && Rebuilt(l).Some? && Rebuilt(m).Some?
    && forall id | id in Rebuilt(l).value.calls && Some(id) != except ::
         && id in Rebuilt(m).value.calls && Rebuilt(m).value.calls[id] == Rebuilt(l).value.calls[id]
         && id in Rebuilt(l).value.arguments && id in Rebuilt(m).value.arguments
         && Rebuilt(m).value.arguments[id] == Rebuilt(l).value.arguments[id]
  }

  /** The intent has been recorded; from here the stages of the call follow. */
  function WithIntent(f: Flight, arguments: Arguments): Flight {
    f.(live := Emit(f.live, ToolIntent(f.live.session.runId, f.call.callId, f.call.toolName, arguments)))
  }

  /** The call starts to wait if its decision is to ask. */
  lemma WaitKeeps(c: Config, f: Flight, asks: bool)
    requires InFlight(f) && (asks ==> f.call.status == Requested)
    ensures asks ==> RecordStatus(c, f, AwaitingApproval).Some?
    ensures var g := if asks then RecordStatus(c, f, AwaitingApproval).value else f;
            && Onward(f, g) && g.live.runs == f.live.runs
            && g.call.status == if asks then AwaitingApproval else f.call.status
  {
    hide InFlight, Carries, Grants, RecordStatus;
    if asks {
      RecordKeeps(c, f, AwaitingApproval);
    } else {
      CarriesItself(f);
    }
  }

  lemma RunToolKeeps(c: Config, f: Flight, arguments: Arguments, response: Option<string>, a: Answers)
    requires InFlight(WithIntent(f, arguments))
    requires response.None? ==> f.call.status == Requested
    requires response.Some? ==> response.value in {"approve", "deny"} && f.call.status == AwaitingApproval
    requires Cleared(Grants(WithIntent(f, arguments).live), f.call.callId) || response == Some("deny")
    ensures var r := RunTool(c, f, arguments, response, a);
            && Onward(WithIntent(f, arguments), Credited(r))
            && (r.ending.LifecycleRaised? ==>
                  response.Some? && a.decision.Answered? && a.decision.value.effect == Allow)
            && (response == Some("deny") ==> r.flight.live.runs == f.live.runs)
            && (r.ending.Returned? && r.ending.final != Ask ==> CallOver(r.flight.call.status))
            && (r.ending.Returned? && r.ending.final == Ask ==>
                  response.None? && r.flight.call.status == AwaitingApproval && r.ending.facts == [])
  {
    hide InFlight, Carries, Onward, Grants, RecordStatus, Cleared, Permit, Fold, Rebuilt;
    var f0 := WithIntent(f, arguments);
    CarriesItself(f0);
    if a.decision.Raises? || a.hook.Raises? {
      return;
    }
    var f1 := NoteIf(f0, a.hook.value.hookId.Some?, "hook_decision");
    HookKeeps(f0, a.hook.value.hookId.Some?);
    var asks := a.decision.value.effect == Ask && response.None?;
    hide NoteIf;
    OnwardFlies(f0, f1);
    WaitKeeps(c, f1, asks);
    var f2 := if asks then RecordStatus(c, f1, AwaitingApproval).value else f1;
    CarriesOn(f0, f1, f2);
    OnwardFlies(f0, f2);
    PermitKeeps(c, f2, a.decision.value, a.hook.value, asks, response, a);
    CarriesOn(f0, f2, Credited(Permit(c, f2, a.decision.value, a.hook.value, asks, response, a)));
  }

  lemma HookKeeps(f: Flight, decided: bool)
    requires InFlight(f)
    ensures var g := NoteIf(f, decided, "hook_decision");
            Onward(f, g) && g.live.runs == f.live.runs && g.call == f.call
  {
    hide InFlight, Carries, Grants, Onward;
    if decided {
      EmitCarries(f, Noted(f.live.session.runId, "hook_decision"));
    } else {
      CarriesItself(f);
    }
  }

  lemma AgreedKnows(l: Live)
    requires Agreed(l)
    ensures Rebuilt(l).Some? && Rebuilt(l).value.session == Some(l.session)
    ensures Rebuilt(l).value.arguments.Keys == Rebuilt(l).value.calls.Keys
    ensures l.pending == Waiting(Rebuilt(l).value.calls) && Balanced(l)
    ensures CallsKept(l, l, None)
  {
    hide Fold, Step, Recorded, Numbered, OfRun;
  }

  // ----- A fresh call -----

  /** The two events that open a fresh call. */
  function Opened(c: Config, l: Live, toolName: string, arguments: Arguments): Flight {
    var l0 := l.(sequence := l.sequence + 1);
    var call := NewCall(c, l0, toolName, arguments);
    WithIntent(Flight(Emit(l0, ToolCallRequested(call)), call), arguments)
  }

  lemma NewCallSteps(c: Config, l: Live, st: RunState, toolName: string, arguments: Arguments)
    requires Tracks(l, st) && !Blank(toolName)
    ensures var call := NewCall(c, l.(sequence := l.sequence + 1), toolName, arguments);
            && call.callId !in st.calls
            && Step(l.session.runId, st, ToolCallRequested(call)) == Some(st.(calls := st.calls[call.callId := call]))
  {
    var call := NewCall(c, l.(sequence := l.sequence + 1), toolName, arguments);
    if call.callId in st.calls {
      CallIdInjective(st.calls[call.callId].sequence, l.sequence + 1);
    }
  }

  function CallOpened(st: RunState, call: SessionToolCall, arguments: Arguments): RunState {
    st.(calls := st.calls[call.callId := call], arguments := st.arguments[call.callId := arguments])
  }

  lemma IntentSteps(runId: string, st: RunState, call: SessionToolCall, arguments: Arguments)
    requires !Blank(runId) && !Blank(call.callId) && !Blank(call.toolName)
    requires st.arguments.Keys == st.calls.Keys && call.callId !in st.calls
    ensures Step(runId, st.(calls := st.calls[call.callId := call]),
                 ToolIntent(runId, call.callId, call.toolName, arguments)) == Some(CallOpened(st, call, arguments))
  {
  }

  lemma OpenedFits(st: RunState, call: SessionToolCall, arguments: Arguments, last: nat)
    requires Numbered(st.calls, last) && AllBacked(st) && st.arguments.Keys == st.calls.Keys
    requires call.callId !in st.calls && call.callId == CallId(last + 1) && call.sequence == last + 1
    requires call.digest == OfArguments(arguments) && call.status == Requested
    ensures var st' := CallOpened(st, call, arguments);
            && Numbered(st'.calls, last + 1) && AllBacked(st') && st'.arguments.Keys == st'.calls.Keys
            && Waiting(st'.calls) == Waiting(st.calls)
  {
    hide CallId;
    var st' := CallOpened(st, call, arguments);
    forall id | id in st'.calls
      ensures Backed(st', id)
    {
      assert id in st.calls ==> Backed(st, id);
    }
    WaitingAfter(st.calls, call);
  }

  lemma OpenedTracks(c: Config, l: Live, st: RunState, toolName: string, arguments: Arguments, log: seq<Event>)
    requires Tracks(l, st) && !Blank(toolName)
    ensures var call := NewCall(c, l.(sequence := l.sequence + 1), toolName, arguments);
            Tracks(l.(sequence := l.sequence + 1, log := log), CallOpened(st, call, arguments))
  {
    NewCallSteps(c, l, st, toolName, arguments);
    OpenedFits(st, NewCall(c, l.(sequence := l.sequence + 1), toolName, arguments), arguments, l.sequence);
    hide Step, CallId, Blank, ValidSession, Numbered, AllBacked, Waiting;
  }

  lemma OpenedRecorded(l: Live, m: Live, request: Event, intent: Event)
    requires request.ToolCallRequested? && Records(request.call, intent)
    requires Rebuilt(l).Some? && Recorded(l) && Fold(l.session.runId, l.log + [request]).Some?
    requires intent.callId in Fold(l.session.runId, l.log + [request]).value.calls
    requires m.session == l.session && m.runs == l.runs && m.log == l.log + [request] + [intent]
    ensures Recorded(m)
  {
    var runId := l.session.runId;
    PairedSnoc(l.log, request);
    PairedSnoc(l.log + [request], intent);
    KnownSnoc(runId, l.log, request);
    KnownSnoc(runId, l.log + [request], intent);
    LicencesSurvive(runId, l.log, l.runs, request);
    LicencesSurvive(runId, l.log + [request], l.runs, intent);
  }

  lemma OpenedRebuilt(c: Config, l: Live, toolName: string, arguments: Arguments)
    requires Rebuilt(l).Some? && Tracks(l, Rebuilt(l).value) && !Blank(toolName)
    ensures var f := Opened(c, l, toolName, arguments);
            && Rebuilt(f.live) == Some(CallOpened(Rebuilt(l).value, f.call, arguments))
            && f.call.callId !in Rebuilt(l).value.calls
            && Fold(l.session.runId, l.log + [ToolCallRequested(f.call)]).Some?
            && f.call.callId in Fold(l.session.runId, l.log + [ToolCallRequested(f.call)]).value.calls
  {
    hide Numbered, AllBacked;
    var runId, st := l.session.runId, Rebuilt(l).value;
    var call := NewCall(c, l.(sequence := l.sequence + 1), toolName, arguments);
    NewCallSteps(c, l, st, toolName, arguments);
    IntentSteps(runId, st, call, arguments);
    hide Tracks, Step;
    FoldSnoc(runId, l.log, ToolCallRequested(call));
    FoldSnoc(runId, l.log + [ToolCallRequested(call)], ToolIntent(runId, call.callId, toolName, arguments));
  }

  lemma OpenedInFlight(c: Config, l: Live, toolName: string, arguments: Arguments)
    requires Agreed(l) && Accepting(l) && !Blank(toolName)
    ensures var f := Opened(c, l, toolName, arguments);
            && InFlight(f) && f.call.callId !in Rebuilt(l).value.calls && f.call.status == Requested
            && Rebuilt(f.live).value.calls == Rebuilt(l).value.calls[f.call.callId := f.call]
            && Rebuilt(f.live).value.arguments == Rebuilt(l).value.arguments[f.call.callId := arguments]
            && Grants(f.live) == Grants(l) && f.live.session == l.session && l.log <= f.live.log
            && f.live.runs == l.runs && f.live.facts == l.facts && f.live.sequence == l.sequence + 1
            && |f.live.log| == |l.log| + 2 && f.live.log[|l.log|] == ToolCallRequested(f.call)
  {
    hide Tracks, Step, Recorded, Fold, CallId, Blank;
    var f := Opened(c, l, toolName, arguments);
    OpenedRebuilt(c, l, toolName, arguments);
    OpenedTracks(c, l, Rebuilt(l).value, toolName, arguments, f.live.log);
    OpenedRecorded(l, f.live, ToolCallRequested(f.call),
                   ToolIntent(l.session.runId, f.call.callId, toolName, arguments));
    assert f.live == l.(sequence := l.sequence + 1, log := f.live.log);
  }

  /** Nothing was asked for a call that has only just been requested. */
  lemma FreshIsCleared(l: Live, callId: string)
    requires Rebuilt(l).Some? && callId !in Rebuilt(l).value.calls
    ensures Cleared(Grants(l), callId) && !Asked(Grants(l), callId)
  {
    ApprovalsAreSound(l.session.runId, l.log);
    forall k | k in Grants(l)
      ensures Grants(l)[k].callId != callId
    {
      assert SoundApproval(Rebuilt(l).value, k);
    }
  }

  lemma FailKeeps(c: Config, l: Live)
    requires Agreed(l) && Accepting(l)
    ensures Agreed(FailSession(c, l)) && FailSession(c, l).session.status == Failed
    ensures CallsKept(l, FailSession(c, l), None)
    ensures Grants(FailSession(c, l)) == Grants(l) && l.log <= FailSession(c, l).log
    ensures FailSession(c, l).runs == l.runs
    ensures Quiet(FailSession(c, l))
  {
    AgreedKnows(l);
    TransitionKeeps(c, l, Failed);
  }

  lemma LaunchKeeps(c: Config, l: Live, toolName: string, arguments: Arguments, a: Answers)
    requires Agreed(l) && Accepting(l) && !Blank(toolName)
    ensures var f := Opened(c, l, toolName, arguments);
            var r := Launch(c, l, toolName, arguments, a);
            && Onward(f, Credited(r)) && !r.ending.LifecycleRaised?
            && (r.ending.Returned? && r.ending.final != Ask ==> CallOver(r.flight.call.status))
            && (r.ending.Returned? && r.ending.final == Ask ==>
                  r.flight.call.status == AwaitingApproval && r.ending.facts == [])
  {
    hide InFlight, Carries, Grants, Cleared, Agreed, Fold, RunTool, Credited, Rebuilt, Onward;
    AgreedKnows(l);
    OpenedInFlight(c, l, toolName, arguments);
    FreshIsCleared(l, Opened(c, l, toolName, arguments).call.callId);
    var l0 := l.(sequence := l.sequence + 1);
    var call := NewCall(c, l0, toolName, arguments);
    RunToolKeeps(c, Flight(Emit(l0, ToolCallRequested(call)), call), arguments, None, a);
  }

  lemma QuietAfter(l: Live, f: Flight, g: Flight)
    requires Quiet(l) && Rebuilt(l).value.session == Some(l.session) && Accepting(l) && Onward(f, g)
    requires Rebuilt(f.live).value.calls == Rebuilt(l).value.calls[f.call.callId := f.call]
    requires CallOver(g.call.status) || g.call.status == AwaitingApproval
    ensures Quiet(g.live)
  {
    FlightFacts(f, g);
    AgreedKnows(g.live);
    hide Agreed, Fold, Step;
    var before, calls := Rebuilt(l).value.calls, Rebuilt(g.live).value.calls;
    assert calls == before[f.call.callId := f.call][f.call.callId := g.call];
    assert Accepting(l) && Accepting(g.live);
    forall id | id in calls
      ensures CallOver(calls[id].status) || calls[id].status == AwaitingApproval
    {
      assert id == f.call.callId || (id in before && calls[id] == before[id]);
    }
  }

  lemma OthersKept(l: Live, f: Flight, arguments: Arguments, g: Flight)
    requires CallsKept(l, l, None) && f.call.callId !in Rebuilt(l).value.calls && Onward(f, g)
    requires Rebuilt(f.live).value.calls == Rebuilt(l).value.calls[f.call.callId := f.call]
    requires Rebuilt(f.live).value.arguments == Rebuilt(l).value.arguments[f.call.callId := arguments]
    ensures CallsKept(l, g.live, None)
  {
    hide Agreed, InFlight;
  }

  /** The approval of a waiting call is one replay accepts. */
  lemma RequestKeeps(c: Config, l: Live, call: SessionToolCall, decision: PermissionDecision, a: Answers)
    requires Agreed(l) && call.callId in Rebuilt(l).value.calls && Rebuilt(l).value.calls[call.callId] == call
    requires !Asked(Grants(l), call.callId) && a.approvalId !in Grants(l)
    requires NewApproval(c, l, call, decision, a).Some?
    ensures var l' := Emit(l, ApprovalRequested(NewApproval(c, l, call, decision, a).value));
            && Agreed(l') && l.log <= l'.log && (Quiet(l) ==> Quiet(l')) && CallsKept(l, l', None)
  {
    hide Agreed, Step, Rebuilt, NewApproval, AcceptsApproval, Blank, Asked, Grants, CallsKept, Quiet;
    var request := NewApproval(c, l, call, decision, a).value;
    AgreedKnows(l);
    NamedAndAccepted(c, l, call, decision, a);
    RequestSteps(l.session.runId, Rebuilt(l).value, request);
    RequestRecorded(l, request);
    CallsUntouched(l, Emit(l, ApprovalRequested(request)), Rebuilt(l).value.approvals[request.approvalId := request]);
  }

  lemma CallsUntouched(l: Live, m: Live, approvals: map<string, ApprovalRequest>)
    requires Agreed(l) && Rebuilt(m) == Some(Rebuilt(l).value.(approvals := approvals))
    ensures (Quiet(l) ==> Quiet(m)) && CallsKept(l, m, None)
  {
    AgreedKnows(l);
    hide Agreed, Fold;
  }

  lemma RequestRecorded(l: Live, request: ApprovalRequest)
    requires Agreed(l)
    requires Step(l.session.runId, Rebuilt(l).value, ApprovalRequested(request)) ==
             Some(Rebuilt(l).value.(approvals := Rebuilt(l).value.approvals[request.approvalId := request]))
    ensures var l' := Emit(l, ApprovalRequested(request));
            && Agreed(l') && l.log <= l'.log
            && Rebuilt(l') == Some(Rebuilt(l).value.(
                                approvals := Rebuilt(l).value.approvals[request.approvalId := request]))
  {
    hide Step, Tracks, Fold, Recorded;
    EmitMoves(l, ApprovalRequested(request));
    RequestTracks(l, Rebuilt(l).value, request, l.log + [ApprovalRequested(request)]);
  }

  lemma NamedAndAccepted(c: Config, l: Live, call: SessionToolCall, decision: PermissionDecision, a: Answers)
    requires Agreed(l) && call.callId in Rebuilt(l).value.calls && Rebuilt(l).value.calls[call.callId] == call
    requires !Asked(Grants(l), call.callId) && a.approvalId !in Grants(l)
    requires NewApproval(c, l, call, decision, a).Some?
    ensures var request := NewApproval(c, l, call, decision, a).value;
            && !Blank(l.session.runId) && request.runId == l.session.runId && request.verdict.Pending?
            && AcceptsApproval(Rebuilt(l).value, request)
  {
    hide Fold, Recorded, AllBacked;
  }

  lemma RequestSteps(runId: string, st: RunState, request: ApprovalRequest)
    requires !Blank(runId) && request.runId == runId && request.verdict.Pending?
    requires AcceptsApproval(st, request)
    ensures Step(runId, st, ApprovalRequested(request)) ==
            Some(st.(approvals := st.approvals[request.approvalId := request]))
  {
    assert request.(verdict := Pending) == request;
  }

  lemma RequestTracks(l: Live, st: RunState, request: ApprovalRequest, log: seq<Event>)
    requires Tracks(l, st)
    ensures Tracks(l.(log := log), st.(approvals := st.approvals[request.approvalId := request]))
  {
    var st' := st.(approvals := st.approvals[request.approvalId := request]);
    forall id | id in st'.calls
      ensures Backed(st', id)
    {
      assert Backed(st, id);
    }
  }

  /** A fresh call keeps the agreement whatever its ports answer, raises no lifecycle error,
      and leaves no call of a session that goes on half done. */
  lemma ExecuteKeeps(c: Config, l: Live, toolName: string, arguments: Arguments, a: Answers)
    requires Agreed(l) && a.approvalId !in Grants(l)
    ensures var t := Execute(c, l, toolName, arguments, a);
            && Agreed(t.live) && l.log <= t.live.log && SameSession(t.live.session, l.session)
            && (t.outcome.Raised? ==> !t.outcome.lifecycle)
            && (Quiet(l) ==> Quiet(t.live))
            && CallsKept(l, t.live, None)
  {
    AgreedKnows(l);
    if !Accepting(l) {
    } else if Blank(toolName) {
      assert Tracks(l.(sequence := l.sequence + 1), Rebuilt(l).value);
    } else {
      ExecuteAccepted(c, l, toolName, arguments, a);
    }
  }

  /** The flight of a fresh call, up to its landing. */
  lemma FreshFlight(c: Config, l: Live, toolName: string, arguments: Arguments, a: Answers)
    requires Agreed(l) && Accepting(l) && !Blank(toolName)
    ensures var r := Launch(c, l, toolName, arguments, a);
            var m := Credited(r).live;
            && Agreed(m) && Accepting(m) && l.log <= m.log && SameSession(m.session, l.session)
            && Grants(m) == Grants(l)
            && CallsKept(l, m, None) && !r.ending.LifecycleRaised?
            && r.flight.call.callId in Rebuilt(m).value.calls
            && Rebuilt(m).value.calls[r.flight.call.callId] == r.flight.call
            && !Asked(Grants(l), r.flight.call.callId)
            && (r.ending.Returned? && Quiet(l) ==> Quiet(m))
  {
    hide Agreed, InFlight, Carries, Fold, Step, CallsKept, Quiet, Launch, Asked, Cleared;
    AgreedKnows(l);
    OpenedInFlight(c, l, toolName, arguments);
    LaunchKeeps(c, l, toolName, arguments, a);
    var f := Opened(c, l, toolName, arguments);
    var r := Launch(c, l, toolName, arguments, a);
    FreshIsCleared(l, f.call.callId);
    OthersKept(l, f, arguments, Credited(r));
    FlightFacts(f, Credited(r));
    if Quiet(l) && r.ending.Returned? {
      QuietAfter(l, f, Credited(r));
    }
  }

  lemma ExecuteAccepted(c: Config, l: Live, toolName: string, arguments: Arguments, a: Answers)
    requires Agreed(l) && a.approvalId !in Grants(l) && Accepting(l) && !Blank(toolName)
    ensures var t := Execute(c, l, toolName, arguments, a);
            && Agreed(t.live) && l.log <= t.live.log && SameSession(t.live.session, l.session)
            && (t.outcome.Raised? ==> !t.outcome.lifecycle)
            && (Quiet(l) ==> Quiet(t.live))
            && CallsKept(l, t.live, None)
  {
    hide Agreed, Fold, CallsKept, Quiet, Launch, NewApproval, Grants, Asked;
    FreshFlight(c, l, toolName, arguments, a);
    var r := Launch(c, l, toolName, arguments, a);
    LandKeeps(c, l, r, None);
    var m := Land(c, r).live;
    if r.ending.Returned? && r.ending.final == Ask && NewApproval(c, m, r.flight.call, r.ending.decision, a).Some? {
      RequestKeeps(c, m, r.flight.call, r.ending.decision, a);
      var request := NewApproval(c, m, r.flight.call, r.ending.decision, a).value;
      CallsStillKept(l, m, Emit(m, ApprovalRequested(request)), None);
    }
  }

  lemma FlightFacts(f: Flight, g: Flight)
    requires Onward(f, g)
    ensures Agreed(g.live) && Accepting(g.live) && f.live.log <= g.live.log
    ensures SameSession(g.live.session, f.live.session)
    ensures g.call.callId in Rebuilt(g.live).value.calls && Rebuilt(g.live).value.calls[g.call.callId] == g.call
  {
    hide Agreed, Fold;
  }

  lemma CallsStillKept(l: Live, m: Live, n: Live, except: Option<string>)
    requires CallsKept(l, m, except) && CallsKept(m, n, None)
    ensures CallsKept(l, n, except)
  {
  }

  // ----- A resumed call -----

  lemma ResumedInFlight(l: Live, call: SessionToolCall, arguments: Arguments)
    requires Agreed(l) && Accepting(l)
    requires call.callId in Rebuilt(l).value.calls && Rebuilt(l).value.calls[call.callId] == call
    requires Rebuilt(l).value.arguments[call.callId] == arguments
    ensures var f := WithIntent(Flight(l, call), arguments);
            && InFlight(f) && Rebuilt(f.live) == Rebuilt(l) && f.live == l.(log := f.live.log) && l.log <= f.live.log
  {
    var st := Rebuilt(l).value;
    var intent := ToolIntent(l.session.runId, call.callId, call.toolName, arguments);
    ResumedIntentSteps(l, st, call, arguments);
    hide Agreed, Fold, Step;
    IdleKeeps(l, intent);
  }

  lemma IntentRepeats(runId: string, st: RunState, id: string, toolName: string, arguments: Arguments)
    requires !Blank(runId) && !Blank(id) && !Blank(toolName)
    requires id in st.calls && st.calls[id].toolName == toolName
    requires id in st.arguments && st.arguments[id] == arguments
    ensures Step(runId, st, ToolIntent(runId, id, toolName, arguments)) == Some(st)
  {
    hide Blank;
    assert st.arguments[id := arguments] == st.arguments;
  }

  lemma TracksNames(l: Live, st: RunState, id: string)
    requires Tracks(l, st) && id in st.calls
    ensures st.calls[id].callId == id && !Blank(id) && !Blank(st.calls[id].toolName) && id in st.arguments
  {
    hide Digits, ZeroPadded;
  }

  lemma ResumedIntentSteps(l: Live, st: RunState, call: SessionToolCall, arguments: Arguments)
    requires Tracks(l, st) && call.callId in st.calls && st.calls[call.callId] == call
    requires st.arguments[call.callId] == arguments
    ensures Step(l.session.runId, st, ToolIntent(l.session.runId, call.callId, call.toolName, arguments)) == Some(st)
  {
    TracksSession(l, st);
    TracksNames(l, st, call.callId);
    hide Tracks, Blank, Step;
    IntentRepeats(l.session.runId, st, call.callId, call.toolName, arguments);
  }

  /** The flight of a resumed call, up to its landing. */
  lemma ResumedFlight(c: Config, l: Live, call: SessionToolCall, arguments: Arguments, response: string, a: Answers)
    requires Agreed(l) && l.session.status == WaitingApproval && call.status == AwaitingApproval
    requires call.callId in Rebuilt(l).value.calls && Rebuilt(l).value.calls[call.callId] == call
    requires Rebuilt(l).value.arguments[call.callId] == arguments && response in {"approve", "deny"}
    requires response == "approve" ==> Cleared(Grants(l), call.callId)
    ensures var r := RunTool(c, Flight(l, call), arguments, Some(response), a);
            var m := Credited(r).live;
            && Agreed(m) && Accepting(m) && l.log <= m.log && SameSession(m.session, l.session)
            && Grants(m) == Grants(l)
            && CallsKept(l, m, Some(call.callId))
            && (r.ending.LifecycleRaised? ==> a.decision.Answered? && a.decision.value.effect == Allow)
            && (response == "deny" ==> m.runs == l.runs)
            && (r.ending.Returned? && Quiet(l) ==> Quiet(m))
  {
    hide Agreed, InFlight, Carries, Fold, Step, Quiet, Cleared, RunTool, CallsKept;
    AgreedKnows(l);
    ResumedInFlight(l, call, arguments);
    var f := Flight(l, call);
    RunToolKeeps(c, f, arguments, Some(response), a);
    var r := RunTool(c, f, arguments, Some(response), a);
    ResumedKept(l, WithIntent(f, arguments), Credited(r));
    FlightFacts(WithIntent(f, arguments), Credited(r));
    if r.ending.Returned? && Quiet(l) {
      var st := Rebuilt(l).value;
      assert st.calls == st.calls[call.callId := call];
      QuietAfter(l, WithIntent(f, arguments), Credited(r));
    }
  }

  /** A flight that lands, or fails its session. */
  lemma LandKeeps(c: Config, l: Live, r: Ran, except: Option<string>)
    requires Agreed(Credited(r).live) && Accepting(Credited(r).live) && CallsKept(l, Credited(r).live, except)
    ensures var m, t := Credited(r).live, Land(c, r);
            && Agreed(t.live) && m.log <= t.live.log && SameSession(t.live.session, m.session)
            && Grants(t.live) == Grants(m) && t.live.runs == m.runs && CallsKept(l, t.live, except)
            && (r.ending.Returned? ==> t.live == m && t.outcome.Finished?)
            && (!r.ending.Returned? ==>
                  && t.outcome == Raised(r.ending.LifecycleRaised?)
                  && Quiet(t.live) && SessionOver(t.live.session.status))
  {
    hide Agreed, Fold, CallsKept, Quiet, FailSession, Grants;
    var m := Credited(r).live;
    if !r.ending.Returned? {
      FailKeeps(c, m);
      FailKeepsSession(c, m);
      CallsStillKept(l, m, FailSession(c, m), except);
    }
  }

  /** Resuming keeps the agreement; a lifecycle error needs a policy that stopped asking, and
      an answer of "deny" never reaches the executor. */
  lemma ResumeKeeps(c: Config, l: Live, call: SessionToolCall, arguments: Arguments, response: string, a: Answers)
    requires Agreed(l)
    requires call.callId in Rebuilt(l).value.calls && Rebuilt(l).value.calls[call.callId] == call
    requires Rebuilt(l).value.arguments[call.callId] == arguments
    requires response == "approve" ==> Cleared(Grants(l), call.callId)
    ensures var t := ResumeCall(c, l, call, arguments, response, a);
            && Agreed(t.live) && l.log <= t.live.log && SameSession(t.live.session, l.session)
            && Grants(t.live) == Grants(l)
            && (t.outcome.Raised? && t.outcome.lifecycle ==> a.decision.Answered? && a.decision.value.effect == Allow)
            && (response == "deny" ==> t.live.runs == l.runs)
            && (Quiet(l) ==> Quiet(t.live))
            && CallsKept(l, t.live, Some(call.callId))
            && (t.outcome.Raised? ==> SessionOver(t.live.session.status))
            && (t.outcome.Refused? ==> t.live == l)
  {
    hide Agreed, Fold, Quiet, Cleared, RunTool, Land, CallsKept, Credited, Grants;
    if l.session.status != WaitingApproval || call.status != AwaitingApproval
       || response !in {"approve", "deny"} || OfArguments(arguments) != call.digest {
      KeptByItself(l, Some(call.callId));
      return;
    }
    ResumedFlight(c, l, call, arguments, response, a);
    LandKeeps(c, l, RunTool(c, Flight(l, call), arguments, Some(response), a), Some(call.callId));
  }

  lemma KeptByItself(l: Live, except: Option<string>)
    requires Agreed(l)
    ensures CallsKept(l, l, except)
  {
    AgreedKnows(l);
    hide Agreed, Fold;
  }

  lemma StatusRecorded(c: Config, f: Flight, status: CallStatus)
    ensures RecordStatus(c, f, status).Some? <==> CallEdge(f.call.status, status)
    ensures RecordStatus(c, f, status).Some? ==> RecordStatus(c, f, status).value.call.status == status
  {
    hide CallEdge;
  }

  lemma PerformFits(c: Config, f: Flight, decision: PermissionDecision, a: Answers)
    requires f.call.status == Executing
    ensures !Perform(c, f, decision, a).ending.LifecycleRaised?
  {
    assert CallEdge(Executing, Succeeded) && CallEdge(Executing, CallFailed);
    hide RecordStatus, CallEdge;
    if a.result.Raises? {
      StatusRecorded(c, f, CallFailed);
    } else {
      var status := if a.result.value.ok then Succeeded else CallFailed;
      var f0 := f.(live := Emit(f.live, ToolResulted(f.live.session.runId, f.call.callId, a.result.value.ok,
                                                     a.result.value.output)));
      StatusRecorded(c, f0, status);
      if a.bound.Answered? && a.bound.value.Some? {
        StatusRecorded(c, f0.(live := Emit(f0.live, WriteCheckpointed(a.bound.value.value))), status);
      }
    }
  }

  /** A waiting call is admitted only after it is approved, for which the policy has to ask. */
  lemma AdmitFitsIff(c: Config, f: Flight, decision: PermissionDecision, a: Answers)
    requires f.call.status == AwaitingApproval
    ensures Admit(c, f, decision, a).ending.LifecycleRaised? <==>
              && decision.effect != Ask && a.sandboxAllows.Answered? && (a.sandboxAllows.value ==> a.backedUp.Answered?)
  {
    hide RecordStatus, Perform, Reconcile;
    StatusRecorded(c, f, Approved);
    var f0 := if decision.effect == Ask then RecordStatus(c, f, Approved).value else f;
    var f1 := f0.(live := Note(f0.live, "sandbox_decision"));
    StatusRecorded(c, f1, SandboxDenied);
    StatusRecorded(c, f1, Executing);
    if CallEdge(f1.call.status, Executing) {
      var g := RecordStatus(c, f1, Executing).value;
      PerformFits(c, g.(live := g.live.(runs := f1.live.runs + [|f1.live.log|])), decision, a);
    }
  }

  lemma ResumedToolFitsIff(c: Config, f: Flight, arguments: Arguments, response: string, a: Answers)
    requires f.call.status == AwaitingApproval && response in {"approve", "deny"}
    ensures RunTool(c, f, arguments, Some(response), a).ending.LifecycleRaised? <==>
              && a.decision.Answered? && a.decision.value.effect == Allow
              && a.hook.Answered? && !a.hook.value.denies
              && a.sandboxAllows.Answered? && (a.sandboxAllows.value ==> a.backedUp.Answered?)
  {
    hide RecordStatus, Admit, FinalEffect;
    if a.decision.Answered? && a.hook.Answered? {
      var intent := ToolIntent(f.live.session.runId, f.call.callId, f.call.toolName, arguments);
      var f1 := NoteIf(f.(live := Emit(f.live, intent)), a.hook.value.hookId.Some?, "hook_decision");
      var f2 := f1.(live := Note(f1.live, "permission_decision"));
      AllowedIff(c.approvalMode, a.decision.value.effect, a.hook.value.denies, Some(response));
      StatusRecorded(c, f2, PolicyDenied);
      AdmitFitsIff(c, f2, a.decision.value, a);
    }
  }

  /** Exactly when a resumed call raises a lifecycle error, and so fails the session: the
      policy no longer asks but allows, and neither a hook nor another port stops the call
      before its status is to move. */
  lemma LifecycleErrorIff(c: Config, l: Live, call: SessionToolCall, arguments: Arguments, response: string, a: Answers)
    requires !ResumeCall(c, l, call, arguments, response, a).outcome.Refused?
    ensures var o := ResumeCall(c, l, call, arguments, response, a).outcome;
            (o.Raised? && o.lifecycle) <==>
              && a.decision.Answered? && a.decision.value.effect == Allow
              && a.hook.Answered? && !a.hook.value.denies
              && a.sandboxAllows.Answered? && (a.sandboxAllows.value ==> a.backedUp.Answered?)
  {
    hide RunTool, FailSession;
    ResumedToolFitsIff(c, Flight(l, call), arguments, response, a);
  }

  lemma ResumedKept(l: Live, f: Flight, g: Flight)
    requires CallsKept(l, l, None) && Rebuilt(f.live) == Rebuilt(l) && Onward(f, g)
    ensures CallsKept(l, g.live, Some(f.call.callId))
  {
    hide Agreed, InFlight;
  }

  // ----- Opening and closing -----

  /** A log as it is before the session is created: nothing in it that replay reads. */
  predicate Preamble(runId: string, log: seq<Event>) {
    Fold(runId, log) == Some(NOTHING) && Paired(log) && !EndsInRequest(log) && Known(runId, log)
  }

  lemma StartKeeps(c: Config, session: AgentSession, log: seq<Event>)
    requires ValidSession(session) && session.status == Created && Preamble(session.runId, log)
    ensures var l := Start(c, Fresh(session, log));
            Agreed(l) && Quiet(l) && l.session.status == Running && SameSession(l.session, session)
  {
    var l := Fresh(session, log);
    EmitMoves(l, SessionCreated(session));
    var l0 := Emit(l, SessionCreated(session));
    var s := session.(status := Running, updatedAt := Now(c, l0));
    EmitMoves(l0, SessionStatusChanged(s));
    var m := Start(c, l);
    assert Rebuilt(m) == Some(NOTHING.(session := Some(s)));
  }

  lemma CloseKeeps(c: Config, l: Live)
    requires Agreed(l)
    ensures var m := Close(c, l);
            && Agreed(m) && l.log <= m.log && SameSession(m.session, l.session) && Grants(m) == Grants(l)
            && (Quiet(l) ==> Quiet(m)) && m.runs == l.runs
            && (m.session.status == Completed <==>
                  l.session.status == Completed || (l.session.status == Running && !l.blocked))
            && (m.session.status == Completed || m == l)
  {
    AgreedKnows(l);
    if l.session.status == Running && !l.blocked {
      TransitionKeeps(c, l, Completed);
      CompletedIsQuiet(l, Close(c, l));
    }
  }

  /** A running session without waiting calls has only finished ones. */
  lemma CompletedIsQuiet(l: Live, m: Live)
    requires Agreed(l) && Agreed(m) && Rebuilt(m).value.calls == Rebuilt(l).value.calls
    requires l.session.status == Running && m.session.status == Completed
    ensures Quiet(l) ==> Quiet(m)
  {
    AgreedKnows(l);
    AgreedKnows(m);
    hide Agreed, Fold, Step;
    forall id | id in Rebuilt(m).value.calls
      ensures Rebuilt(m).value.calls[id].status != AwaitingApproval
    {
      assert id !in Waiting(Rebuilt(l).value.calls);
    }
  }

  lemma TimeOutKeeps(c: Config, l: Live)
    requires Agreed(l)
    ensures var m := TimeOut(c, l);
            && Agreed(m) && l.log <= m.log && SameSession(m.session, l.session) && Grants(m) == Grants(l)
            && (Quiet(l) ==> Quiet(m)) && m.runs == l.runs && SessionOver(m.session.status)
  {
    NotYetCreated(l);
    hide Agreed, Fold, FailSession, CallsKept, Quiet, Grants;
    if !SessionOver(l.session.status) {
      var noted := Note(l, "session_timed_out");
      NoteKeeps(l, "session_timed_out");
      hide Note, Rebuilt;
      assert Agreed(noted);
      FailKeeps(c, noted);
      FailKeepsSession(c, noted);
    }
  }

  lemma NoteKeeps(l: Live, kind: string)
    requires Agreed(l)
    ensures var m := Note(l, kind);
            Agreed(m) && l.log <= m.log && Grants(m) == Grants(l) && m.session == l.session && m.runs == l.runs
  {
    hide Agreed, Fold;
    PassiveKeeps(l, Noted(l.session.runId, kind));
  }

  lemma NotYetCreated(l: Live)
    requires Agreed(l)
    ensures l.session.status != Created
  {
  }

  lemma FailKeepsSession(c: Config, l: Live)
    ensures SameSession(FailSession(c, l).session, l.session)
  {
  }

  lemma WithBlocked(l: Live, blocked: bool)
    requires Agreed(l)
    ensures var m := l.(blocked := blocked); Agreed(m) && Rebuilt(m) == Rebuilt(l) && (Quiet(l) <==> Quiet(m))
  {
  }

  lemma AnswerKeeps(c: Config, l: Live, verified: bool)
    requires Agreed(l) && AnswerFinally(c, l, verified).Some?
    ensures var m := AnswerFinally(c, l, verified).value;
            && Agreed(m) && l.log <= m.log && SameSession(m.session, l.session) && Grants(m) == Grants(l)
            && (Quiet(l) ==> Quiet(m)) && m.runs == l.runs
            && (m.session.status == Completed <==> verified || c.finalAnswerMode == Warn)
            && (m.session.status == Completed || Rebuilt(m) == Rebuilt(l))
  {
    hide Recorded, Tracks, Fold, Step, QuietState;
    var runId := l.session.runId;
    PassiveKeeps(l, Noted(runId, "final_answer_submitted"));
    var l0 := Note(l, "final_answer_submitted");
    PassiveKeeps(l0, Noted(runId, "groundguard_check"));
    var l1 := Note(l0, "groundguard_check");
    AgreedKnows(l);
    WithBlocked(l1, !verified && c.finalAnswerMode != Warn);
    if verified || c.finalAnswerMode == Warn {
      TransitionKeeps(c, l1.(blocked := false), Completed);
      CompletedIsQuiet(l1.(blocked := false), AnswerFinally(c, l, verified).value);
    }
  }

  // ----- What agreement means -----

  /** Replay accepts the log of a live session exactly when it can read every mapped fact, and
      then hands back the session, the facts and the waiting calls the object holds. */
  lemma ReplayIsLive(l: Live)
    requires Agreed(l)
    ensures Replayed(l.session.runId, l.log).Some? <==> Readable(l.facts)
    ensures var r := Replayed(l.session.runId, l.log);
            r.Some? ==> r.value.session == Some(l.session) && r.value.facts == l.facts
                        && Waiting(r.value.calls) == l.pending
  {
  }

  /** The fact mapper reads `=5` in a fact block as a fact with a blank key; replay then
      rejects the log that records it. */
  lemma BlankKeyBreaksReplay(runId: string, log: seq<Event>, tail: seq<Event>)
    ensures Replayed(runId, log + [FactMapped(runId, [Fact("", "5", None, "call_001", "shell", false)])] + tail).None?
  {
    var e := FactMapped(runId, [Fact("", "5", None, "call_001", "shell", false)]);
    assert !ReadableFact(e.facts[0]);
    assert (log + [e] + tail)[|log|] == e;
    UnreadableStays(runId, log + [e] + tail, |log|);
  }
}
