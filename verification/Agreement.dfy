/** The live session and the state replay rebuilds from its log are the same state. */
module Agreement {
  import opened Texts
  import opened Lifecycle
  import opened Entities
  import opened Replay
  import opened Pipeline

  /** Each request is followed at once by the intent that records its arguments. */
  predicate Paired(log: seq<Event>) {
    forall i | 0 <= i && i + 1 < |log| && log[i].ToolCallRequested? :: Records(log[i].call, log[i + 1])
  }

  predicate Records(c: SessionToolCall, e: Event) {
    e.ToolIntent? && e.callId == c.callId && OfArguments(e.arguments) == c.digest
  }

  /** An intent is only ever recorded for a call that has been requested. */
  predicate Known(runId: string, log: seq<Event>) {
    forall i | 0 <= i < |log| && log[i].ToolIntent? ::
      Fold(runId, log[..i]).Some? && log[i].callId in Fold(runId, log[..i]).value.calls
  }

  predicate EndsInRequest(log: seq<Event>) { log != [] && log[|log| - 1].ToolCallRequested? }

  predicate Numbered(calls: map<string, SessionToolCall>, last: nat) {
    forall id | id in calls ::
      calls[id].callId == id && 1 <= calls[id].sequence <= last && id == CallId(calls[id].sequence)
  }

  predicate OfRun(runId: string, calls: map<string, SessionToolCall>) {
    forall id | id in calls :: calls[id].runId == runId && !Blank(calls[id].toolName)
  }

  function Waiting(calls: map<string, SessionToolCall>): set<string> {
    set id | id in calls && calls[id].status == AwaitingApproval
  }

  /** Every approval asked for this call was granted. */
  predicate Cleared(approvals: map<string, ApprovalRequest>, callId: string) {
    forall k | k in approvals && approvals[k].callId == callId :: approvals[k].verdict.Approval?
  }

  /** The executor ran just after event i, which set this call executing, and it was cleared. */
  predicate Licensed(runId: string, log: seq<Event>, i: nat) {
    && i < |log| && log[i].ToolCallStatusChanged? && log[i].call.status == Executing
    && var before := Fold(runId, log[..i]); before.Some? && Cleared(before.value.approvals, log[i].call.callId)
  }

  predicate AllLicensed(runId: string, log: seq<Event>, runs: seq<nat>) {
    && (forall j | 0 <= j < |runs| :: Licensed(runId, log, runs[j]))
    && (forall i, j | 0 <= i < j < |runs| :: runs[i] < runs[j])
  }

  function Rebuilt(l: Live): Option<RunState> { Fold(l.session.runId, l.log) }

  /** Live state and replayed state agree on everything they both hold. */
  predicate Tracks(l: Live, st: RunState) {
    && st.session == Some(l.session) && ValidSession(l.session) && l.session.status != Created
    && st.facts == l.facts
    && l.pending == Waiting(st.calls)
    && Numbered(st.calls, l.sequence) && OfRun(l.session.runId, st.calls)
    && st.arguments.Keys == st.calls.Keys && AllBacked(st)
  }

  /** The session waits exactly while a call does. */
  predicate Balanced(l: Live) {
    Accepting(l) ==> (l.session.status == WaitingApproval <==> l.pending != {})
  }

  predicate Recorded(l: Live) {
    && Paired(l.log) && !EndsInRequest(l.log) && Known(l.session.runId, l.log)
    && AllLicensed(l.session.runId, l.log, l.runs)
  }

  /** The agreement that holds between any two operations of a session. */
  predicate Agreed(l: Live) {
    && Rebuilt(l).Some? && Tracks(l, Rebuilt(l).value)
    && Balanced(l) && Recorded(l)
  }

  predicate InFlight(f: Flight) {
    && Agreed(f.live) && Accepting(f.live)
    && f.call.callId in Rebuilt(f.live).value.calls && Rebuilt(f.live).value.calls[f.call.callId] == f.call
  }

  /** From f to g only the active call, the session status, the log and the runs moved. */
  predicate Carries(f: Flight, g: Flight) {
    && Rebuilt(f.live).Some? && Rebuilt(g.live).Some? && InFlight(g) && SameCall(g.call, f.call)
    && Rebuilt(g.live).value.calls == Rebuilt(f.live).value.calls[f.call.callId := g.call]
    && Rebuilt(g.live).value.approvals == Rebuilt(f.live).value.approvals
    && Rebuilt(g.live).value.arguments == Rebuilt(f.live).value.arguments
    && SameSession(g.live.session, f.live.session)
    && g.live.sequence == f.live.sequence && g.live.blocked == f.live.blocked
    && f.live.log <= g.live.log
  }

  function Grants(l: Live): map<string, ApprovalRequest> {
    if Rebuilt(l).Some? then Rebuilt(l).value.approvals else map[]
  }

  /** What the stages of a call need of Carries. */
  predicate Onward(f: Flight, g: Flight) {
    && Carries(f, g) && InFlight(g) && Grants(g.live) == Grants(f.live)
    && g.live.session.runId == f.live.session.runId && g.call.callId == f.call.callId
  }

  // ----- One event -----

  lemma PairedSnoc(log: seq<Event>, e: Event)
    requires Paired(log)
    requires EndsInRequest(log) ==> Records(log[|log| - 1].call, e)
    ensures Paired(log + [e])
  {
  }

  lemma KnownSnoc(runId: string, log: seq<Event>, e: Event)
    requires Known(runId, log) && Fold(runId, log).Some?
    requires e.ToolIntent? ==> e.callId in Fold(runId, log).value.calls
    ensures Known(runId, log + [e])
  {
    var longer := log + [e];
    forall i | 0 <= i < |longer| && longer[i].ToolIntent?
      ensures Fold(runId, longer[..i]).Some? && longer[i].callId in Fold(runId, longer[..i]).value.calls
    {
      assert longer[..i] == log[..i];
      assert i == |log| ==> log[..i] == log;
    }
  }

  lemma LicencesSurvive(runId: string, log: seq<Event>, runs: seq<nat>, e: Event)
    requires AllLicensed(runId, log, runs)
    ensures AllLicensed(runId, log + [e], runs)
  {
    forall j | 0 <= j < |runs|
      ensures Licensed(runId, log + [e], runs[j])
    {
      assert Licensed(runId, log, runs[j]);
      assert (log + [e])[..runs[j]] == log[..runs[j]];
    }
  }

  lemma EmitMoves(l: Live, e: Event)
    requires Rebuilt(l).Some? && Recorded(l) && !e.ToolCallRequested?
    requires e.ToolIntent? ==> e.callId in Rebuilt(l).value.calls
    ensures Rebuilt(Emit(l, e)) == Step(l.session.runId, Rebuilt(l).value, e)
    ensures Recorded(Emit(l, e)) && l.log <= Emit(l, e).log
  {
    FoldSnoc(l.session.runId, l.log, e);
    PairedSnoc(l.log, e);
    KnownSnoc(l.session.runId, l.log, e);
    LicencesSurvive(l.session.runId, l.log, l.runs, e);
  }

  /** An event that changes nothing in the replayed state leaves everything agreed. */
  lemma IdleKeeps(l: Live, e: Event)
    requires Agreed(l) && Step(l.session.runId, Rebuilt(l).value, e) == Rebuilt(l) && !e.ToolCallRequested?
    requires e.ToolIntent? ==> e.callId in Rebuilt(l).value.calls
    ensures Agreed(Emit(l, e)) && Rebuilt(Emit(l, e)) == Rebuilt(l) && l.log <= Emit(l, e).log
  {
    hide Step;
    EmitMoves(l, e);
  }

  lemma PassiveKeeps(l: Live, e: Event)
    requires Agreed(l) && RunOf(e) == l.session.runId
    requires e.Noted? || e.ToolResulted? || e.WriteCheckpointed?
    ensures Agreed(Emit(l, e)) && Rebuilt(Emit(l, e)) == Rebuilt(l) && l.log <= Emit(l, e).log
  {
    PassiveStep(l.session.runId, Rebuilt(l).value, e);
    hide Step, Fold, Recorded, Balanced, Numbered, OfRun, AllBacked, Blank;
    IdleKeeps(l, e);
  }

  lemma PassiveStep(runId: string, st: RunState, e: Event)
    requires !Blank(runId) && RunOf(e) == runId
    requires e.Noted? || e.ToolResulted? || e.WriteCheckpointed?
    ensures Step(runId, st, e) == Some(st)
  {
  }

  lemma SessionSteps(runId: string, st: RunState, s: AgentSession)
    requires !Blank(runId) && s.runId == runId && st.session.Some? && SameSession(s, st.session.value)
    requires StampText(s.updatedAt) && SessionEdge(st.session.value.status, s.status)
    ensures Step(runId, st, SessionStatusChanged(s)) == Some(st.(session := Some(s)))
  {
  }

  lemma TracksMovedSession(l: Live, st: RunState, s: AgentSession, log: seq<Event>)
    requires Tracks(l, st) && SameSession(s, l.session) && StampText(s.updatedAt) && s.status != Created
    ensures Tracks(l.(session := s, log := log), st.(session := Some(s)))
  {
    hide Blank, Numbered, OfRun;
    var st' := st.(session := Some(s));
    forall id | id in st'.calls
      ensures Backed(st', id)
    {
      assert Backed(st, id);
    }
  }

  lemma TracksSession(l: Live, st: RunState)
    requires Tracks(l, st)
    ensures st.session == Some(l.session) && !Blank(l.session.runId)
  {
  }

  lemma EdgeLeadsOn(a: SessionStatus, b: SessionStatus)
    requires SessionEdge(a, b)
    ensures b != Created
  {
  }

  lemma TransitionKeeps(c: Config, l: Live, status: SessionStatus)
    requires Rebuilt(l).Some? && Tracks(l, Rebuilt(l).value) && Recorded(l)
    requires SessionEdge(l.session.status, status)
    requires Accepting(l.(session := l.session.(status := status))) ==> (status == WaitingApproval <==> l.pending != {})
    ensures var m := TransitionSession(c, l, status);
            && Agreed(m) && m.session.status == status && SameSession(m.session, l.session)
            && Rebuilt(m).value.calls == Rebuilt(l).value.calls
            && Rebuilt(m).value.approvals == Rebuilt(l).value.approvals
            && Rebuilt(m).value.arguments == Rebuilt(l).value.arguments
            && l.log <= m.log && m == l.(session := m.session, log := m.log)
  {
    hide Fold, Step, Recorded, Tracks, Blank, Agreed;
    var s := l.session.(status := status, updatedAt := Now(c, l));
    var moved := Emit(l.(session := s), SessionStatusChanged(s));
    SessionMoves(l, s);
    PassiveKeeps(moved, Noted(s.runId, "session_completed"));
  }

  /** The session of a live state and of its log move together. */
  lemma SessionMoves(l: Live, s: AgentSession)
    requires Rebuilt(l).Some? && Tracks(l, Rebuilt(l).value) && Recorded(l)
    requires SameSession(s, l.session) && StampText(s.updatedAt) && SessionEdge(l.session.status, s.status)
    requires Accepting(l.(session := s)) ==> (s.status == WaitingApproval <==> l.pending != {})
    ensures var moved := Emit(l.(session := s), SessionStatusChanged(s));
            && Agreed(moved) && Rebuilt(moved) == Some(Rebuilt(l).value.(session := Some(s))) && l.log <= moved.log
  {
    TracksSession(l, Rebuilt(l).value);
    hide Fold, Step, Recorded, Tracks, Blank;
    SessionSteps(s.runId, Rebuilt(l).value, s);
    EdgeLeadsOn(l.session.status, s.status);
    EmitMoves(l, SessionStatusChanged(s));
    TracksMovedSession(l, Rebuilt(l).value, s, l.log + [SessionStatusChanged(s)]);
  }

  lemma WaitingAfter(calls: map<string, SessionToolCall>, c: SessionToolCall)
    ensures Waiting(calls[c.callId := c]) ==
            if c.status == AwaitingApproval then Waiting(calls) + {c.callId} else Waiting(calls) - {c.callId}
  {
  }

  lemma ReconcileKeeps(c: Config, l: Live)
    requires Rebuilt(l).Some? && Tracks(l, Rebuilt(l).value) && Recorded(l) && Accepting(l)
    ensures var m := Reconcile(c, l);
            && Agreed(m) && Accepting(m) && SameSession(m.session, l.session)
            && Rebuilt(m).value.calls == Rebuilt(l).value.calls
            && Rebuilt(m).value.approvals == Rebuilt(l).value.approvals
            && Rebuilt(m).value.arguments == Rebuilt(l).value.arguments
            && l.log <= m.log && m == l.(session := m.session, log := m.log)
  {
    if l.pending != {} && l.session.status == Running {
      TransitionKeeps(c, l, WaitingApproval);
    } else if l.pending == {} && l.session.status == WaitingApproval {
      TransitionKeeps(c, l, Running);
    }
  }

  /** The session just before it is reconciled with the new status of its active call. */
  function Noticed(c: Config, f: Flight, call: SessionToolCall): Live {
    var noted := Emit(f.live, ToolCallStatusChanged(call));
    noted.(pending := if call.status == AwaitingApproval then noted.pending + {call.callId}
                      else noted.pending - {call.callId})
  }

  /** Moving one call along leaves ids, numbering and bound arguments as they were. */
  lemma MovedCallFits(st: RunState, call: SessionToolCall, last: nat)
    requires call.callId in st.calls && SameCall(call, st.calls[call.callId])
    requires Numbered(st.calls, last) && AllBacked(st)
    ensures var st' := st.(calls := st.calls[call.callId := call]);
            st'.calls.Keys == st.calls.Keys && Numbered(st'.calls, last) && AllBacked(st')
  {
    var st' := st.(calls := st.calls[call.callId := call]);
    forall id | id in st'.calls
      ensures Backed(st', id)
    {
      assert Backed(st, id);
    }
  }

  lemma StatusSteps(runId: string, st: RunState, call: SessionToolCall)
    requires !Blank(runId) && call.runId == runId
    requires call.callId in st.calls && SameCall(call, st.calls[call.callId]) && StampText(call.updatedAt)
    requires CallEdge(st.calls[call.callId].status, call.status)
    ensures Step(runId, st, ToolCallStatusChanged(call)) == Some(st.(calls := st.calls[call.callId := call]))
  {
  }

  lemma NoticedTracks(c: Config, f: Flight, call: SessionToolCall)
    requires InFlight(f) && SameCall(call, f.call) && StampText(call.updatedAt)
    requires f.call.runId == f.live.session.runId
    requires CallEdge(f.call.status, call.status)
    ensures var l := Noticed(c, f, call);
            && Rebuilt(l) == Some(Rebuilt(f.live).value.(calls := Rebuilt(f.live).value.calls[call.callId := call]))
            && Tracks(l, Rebuilt(l).value) && Recorded(l) && f.live.log <= l.log
  {
    var st := Rebuilt(f.live).value;
    TracksSession(f.live, st);
    StatusSteps(f.live.session.runId, st, call);
    MovedTracks(f.live, st, call, f.live.log + [ToolCallStatusChanged(call)]);
    hide Step, Fold, Recorded, Tracks;
    EmitMoves(f.live, ToolCallStatusChanged(call));
  }

  /** Moving one call along, with the pending set, on both sides. */
  lemma MovedTracks(l: Live, st: RunState, call: SessionToolCall, log: seq<Event>)
    requires Tracks(l, st) && call.callId in st.calls && SameCall(call, st.calls[call.callId])
    ensures var pending := if call.status == AwaitingApproval then l.pending + {call.callId}
                           else l.pending - {call.callId};
            Tracks(l.(pending := pending, log := log), st.(calls := st.calls[call.callId := call]))
  {
    MovedCallFits(st, call, l.sequence);
    WaitingAfter(st.calls, call);
    hide Waiting, Numbered, AllBacked, ValidSession;
  }

  lemma RecordKeeps(c: Config, f: Flight, status: CallStatus)
    requires InFlight(f) && CallEdge(f.call.status, status)
    ensures RecordStatus(c, f, status).Some?
    ensures var g := RecordStatus(c, f, status).value;
            && Onward(f, g) && g.call.status == status
            && |f.live.log| < |g.live.log| && g.live.log[|f.live.log|] == ToolCallStatusChanged(g.call)
            && g.live.runs == f.live.runs && g.live.facts == f.live.facts
  {
    hide Agreed, Tracks, Recorded, Fold, Step;
    var call := f.call.(status := status, updatedAt := Now(c, f.live));
    ActiveCallFits(f);
    NoticedTracks(c, f, call);
    ReconcileKeeps(c, Noticed(c, f, call));
  }

  lemma ActiveCallFits(f: Flight)
    requires InFlight(f)
    ensures f.call.runId == f.live.session.runId && Rebuilt(f.live).Some?
  {
  }

  lemma NoEdgeNoStatus(c: Config, f: Flight, status: CallStatus)
    ensures RecordStatus(c, f, status).None? <==> !CallEdge(f.call.status, status)
  {
  }

  lemma CarriesOn(f: Flight, g: Flight, h: Flight)
    requires Onward(f, g) && Onward(g, h)
    ensures Onward(f, h)
  {
    hide InFlight;
    var s := Rebuilt(f.live).value;
    assert s.calls[f.call.callId := g.call][g.call.callId := h.call] == s.calls[f.call.callId := h.call];
  }

  lemma CarriesItself(f: Flight)
    requires InFlight(f)
    ensures Onward(f, f)
  {
    var s := Rebuilt(f.live).value;
    assert s.calls == s.calls[f.call.callId := f.call];
  }

  lemma EmitCarries(f: Flight, e: Event)
    requires InFlight(f) && RunOf(e) == f.live.session.runId
    requires e.Noted? || e.ToolResulted? || e.WriteCheckpointed?
    ensures Onward(f, f.(live := Emit(f.live, e)))
  {
    PassiveKeeps(f.live, e);
    CarriesItself(f);
  }

  // ----- The stages of a call -----

  lemma OnwardFlies(f: Flight, g: Flight)
    requires Onward(f, g)
    ensures InFlight(g) && Grants(g.live) == Grants(f.live) && g.call.callId == f.call.callId
  {
    hide InFlight, Carries, Grants;
  }

  /** The flight once the session has taken over the facts of a finished call. */
  function Credited(r: Ran): Flight {
    if r.ending.Returned? then r.flight.(live := r.flight.live.(facts := r.flight.live.facts + r.ending.facts))
    else r.flight
  }

  lemma FactsCredited(f: Flight, facts: seq<Fact>)
    requires InFlight(f)
    ensures var l := Emit(f.live, FactMapped(f.live.session.runId, facts));
            Onward(f, f.(live := l.(facts := l.facts + facts)))
  {
    var e := FactMapped(f.live.session.runId, facts);
    var l := Emit(f.live, e);
    var m := l.(facts := l.facts + facts);
    EmitMoves(f.live, e);
    FactsTrack(f.live, Rebuilt(f.live).value, facts, l.log);
    assert Rebuilt(m) == Rebuilt(l);
    assert InFlight(f.(live := m));
    CarriesItself(f);
  }

  lemma FactsTrack(l: Live, st: RunState, facts: seq<Fact>, log: seq<Event>)
    requires Tracks(l, st)
    ensures Step(l.session.runId, st, FactMapped(l.session.runId, facts)) == Some(st.(facts := st.facts + facts))
    ensures Tracks(l.(facts := l.facts + facts, log := log), st.(facts := st.facts + facts))
  {
    var st' := st.(facts := st.facts + facts);
    forall id | id in st'.calls
      ensures Backed(st', id)
    {
      assert Backed(st, id);
    }
  }

  lemma PerformKeeps(c: Config, f: Flight, decision: PermissionDecision, a: Answers)
    requires InFlight(f) && f.call.status == Executing
    ensures var r := Perform(c, f, decision, a);
            && Onward(f, Credited(r)) && r.flight.live.runs == f.live.runs
            && !r.ending.LifecycleRaised?
            && (r.ending.Returned? ==> CallOver(r.flight.call.status) && r.ending.final == Allow)
  {
    hide InFlight, Carries, Grants, RecordStatus, Cleared;
    if a.result.Raises? {
      RecordKeeps(c, f, CallFailed);
    } else {
      var runId := f.live.session.runId;
      var result := a.result.value;
      var e := ToolResulted(runId, f.call.callId, result.ok, result.output);
      var f0 := f.(live := Emit(f.live, e));
      EmitCarries(f, e);
      var binds := a.backedUp == Answered(true) && result.ok;
      if binds && (a.bound.Raises? || (a.bound.value.Some? && a.bound.value.value.runId != runId)) {
      } else {
        var f1 := f0;
        if binds && a.bound.value.Some? {
          f1 := f0.(live := Emit(f0.live, WriteCheckpointed(a.bound.value.value)));
          EmitCarries(f0, WriteCheckpointed(a.bound.value.value));
          CarriesOn(f, f0, f1);
        }
        var status := if result.ok then Succeeded else CallFailed;
        RecordKeeps(c, f1, status);
        var done := RecordStatus(c, f1, status).value;
        CarriesOn(f, f1, done);
        if a.mapped.Answered? {
          FactsCredited(done, a.mapped.value);
          var l := Emit(done.live, FactMapped(runId, a.mapped.value));
          CarriesOn(f, done, done.(live := l.(facts := l.facts + a.mapped.value)));
        }
      }
    }
  }

  /** The executor's run is licensed by the event that set the call executing. */
  lemma RunIsLicensed(f: Flight, g: Flight)
    requires InFlight(f) && Onward(f, g) && g.live.runs == f.live.runs
    requires |f.live.log| < |g.live.log| && g.live.log[|f.live.log|] == ToolCallStatusChanged(g.call)
    requires g.call.status == Executing && Cleared(Grants(f.live), g.call.callId)
    ensures Onward(f, g.(live := g.live.(runs := f.live.runs + [|f.live.log|])))
  {
    hide AllLicensed, Step, Tracks, Cleared, Fold, Paired, Known, Balanced;
    var runId, i := g.live.session.runId, |f.live.log|;
    assert g.live.log[..i] == f.live.log;
    assert Licensed(runId, g.live.log, i);
    assert AllLicensed(runId, f.live.log, f.live.runs) && AllLicensed(runId, g.live.log, f.live.runs);
    hide InFlight, Carries, Licensed;
    OneMoreRun(runId, f.live.log, g.live.log, f.live.runs);
    WithRuns(f, g, f.live.runs + [i]);
  }

  lemma WithRuns(f: Flight, g: Flight, runs: seq<nat>)
    requires Onward(f, g) && AllLicensed(g.live.session.runId, g.live.log, runs)
    ensures Onward(f, g.(live := g.live.(runs := runs)))
  {
    hide AllLicensed, Paired, Step, Fold, AllBacked, Numbered, OfRun;
    var h := g.(live := g.live.(runs := runs));
    assert Rebuilt(h.live) == Rebuilt(g.live);
    assert Tracks(h.live, Rebuilt(h.live).value);
  }

  lemma OneMoreRun(runId: string, log: seq<Event>, longer: seq<Event>, runs: seq<nat>)
    requires AllLicensed(runId, log, runs) && AllLicensed(runId, longer, runs)
    requires |log| < |longer| && log == longer[..|log|] && Licensed(runId, longer, |log|)
    ensures AllLicensed(runId, longer, runs + [|log|])
  {
    forall j | 0 <= j < |runs|
      ensures runs[j] < |log|
    {
      assert Licensed(runId, log, runs[j]);
    }
  }

  lemma AdmitKeeps(c: Config, f: Flight, decision: PermissionDecision, a: Answers)
    requires InFlight(f)
    requires decision.effect == Ask ==> f.call.status == AwaitingApproval
    requires f.call.status in {Requested, AwaitingApproval}
    requires Cleared(Grants(f.live), f.call.callId) || (f.call.status == AwaitingApproval && decision.effect != Ask)
    ensures var r := Admit(c, f, decision, a);
            && Onward(f, Credited(r))
            && (f.call.status == Requested || decision.effect == Ask ==> !r.ending.LifecycleRaised?)
            && (f.call.status == AwaitingApproval && decision.effect != Ask ==>
                  !r.ending.Returned? && r.flight.live.runs == f.live.runs)
            && (r.ending.Returned? ==> CallOver(r.flight.call.status) && r.ending.final == Allow)
  {
    hide InFlight, Carries, Onward, Grants, RecordStatus, Cleared, Perform;
    CarriesItself(f);
    var approved := f;
    if decision.effect == Ask {
      RecordKeeps(c, f, Approved);
      approved := RecordStatus(c, f, Approved).value;
      OnwardFlies(f, approved);
    }
    if a.sandboxAllows.Raises? {
      return;
    }
    var f0 := approved.(live := Note(approved.live, "sandbox_decision"));
    EmitCarries(approved, Noted(approved.live.session.runId, "sandbox_decision"));
    CarriesOn(f, approved, f0);
    OnwardFlies(f, f0);
    NoEdgeNoStatus(c, f0, SandboxDenied);
    NoEdgeNoStatus(c, f0, Executing);
    if !a.sandboxAllows.value {
      if CallEdge(f0.call.status, SandboxDenied) {
        RecordKeeps(c, f0, SandboxDenied);
        CarriesOn(f, f0, RecordStatus(c, f0, SandboxDenied).value);
        var l := RecordStatus(c, f0, SandboxDenied).value.live;
        assert l.facts + [] == l.facts;
      }
    } else if a.backedUp.Answered? && CallEdge(f0.call.status, Executing) {
      RecordKeeps(c, f0, Executing);
      var g := RecordStatus(c, f0, Executing).value;
      OnwardFlies(f0, g);
      RunIsLicensed(f0, g);
      var run := g.(live := g.live.(runs := f0.live.runs + [|f0.live.log|]));
      CarriesOn(f, f0, run);
      OnwardFlies(f, run);
      PerformKeeps(c, run, decision, a);
      CarriesOn(f, run, Credited(Perform(c, run, decision, a)));
    }
  }

  lemma PermitKeeps(c: Config, f: Flight, decision: PermissionDecision, hook: HookDecision, asks: bool,
                    response: Option<string>, a: Answers)
    requires InFlight(f)
    requires response.None? ==> f.call.status == if asks then AwaitingApproval else Requested
    requires asks <==> decision.effect == Ask && response.None?
    requires response.Some? ==> response.value in {"approve", "deny"} && f.call.status == AwaitingApproval
    requires Cleared(Grants(f.live), f.call.callId) || response == Some("deny")
    ensures var r := Permit(c, f, decision, hook, asks, response, a);
            && Onward(f, Credited(r))
            && (r.ending.LifecycleRaised? ==> response.Some? && decision.effect == Allow)
            && (response == Some("deny") ==> r.flight.live.runs == f.live.runs)
            && (r.ending.Returned? && r.ending.final != Ask ==> CallOver(r.flight.call.status))
            && (r.ending.Returned? && r.ending.final == Deny ==> r.flight.call.status == PolicyDenied)
            && (r.ending.Returned? && r.ending.final == Ask ==>
                  response.None? && r.flight.call.status == AwaitingApproval && r.ending.facts == [])
  {
    hide InFlight, Carries, Onward, Grants, RecordStatus, Cleared, Admit;
    CarriesItself(f);
    var prompts := asks && c.approvalMode == InlinePrompt && !hook.denies && c.canPrompt;
    var f0 := NoteIf(f, prompts, "approval_prompted");
    if prompts {
      EmitCarries(f, Noted(f.live.session.runId, "approval_prompted"));
      OnwardFlies(f, f0);
    }
    if prompts && a.prompt.Raises? {
      return;
    }
    var answer := if prompts then Some(a.prompt.value) else response;
    var f1 := f0.(live := Note(f0.live, "permission_decision"));
    EmitCarries(f0, Noted(f0.live.session.runId, "permission_decision"));
    CarriesOn(f, f0, f1);
    OnwardFlies(f, f1);
    match FinalEffect(c.approvalMode, decision.effect, hook.denies, answer) {
      case Allow =>
        AdmitKeeps(c, f1, decision, a);
        CarriesOn(f, f1, Credited(Admit(c, f1, decision, a)));
      case Ask =>
        var l := f1.live;
        assert l.facts + [] == l.facts;
      case Deny =>
        RecordKeeps(c, f1, PolicyDenied);
        var g := RecordStatus(c, f1, PolicyDenied).value;
        CarriesOn(f, f1, g);
        assert g.live.facts + [] == g.live.facts;
    }
  }
}
