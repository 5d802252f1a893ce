/** The restore points of a run: the log of every history can be read back, and gives those
    that were bound. */
module RunRecovery {
  import opened Texts
  import opened Lifecycle
  import opened Entities
  import opened Replay
  import opened ReplaySoundness
  import opened Pipeline
  import opened Agreement
  import opened Interleavings
  import opened Lifetimes
  import opened LifetimeProofs
  import opened Histories
  import opened ExecutionGate
  import Recovery
  import RecoveryProofs
  import opened RecoveryLog

  // ----- Logs whose restore points are bound as they come -----

  predicate HasResult(log: seq<Event>, callId: string) {
    exists i | 0 <= i < |log| :: log[i].ToolResulted? && log[i].callId == callId
  }

  predicate Started(log: seq<Event>, callId: string) {
    exists i | 0 <= i < |log| ::
      log[i].ToolCallStatusChanged? && log[i].call.callId == callId && log[i].call.status == Executing
  }

  /** An event that reading restore points passes over. */
  predicate Neutral(e: Event) { !e.ToolResulted? && !e.WriteCheckpointed? && !e.Malformed? }

  predicate Follows(runId: string, before: seq<Event>, e: Event) {
    match e
    case ToolResulted(_, id, _, _) => ShowsDigest(e) && Started(before, id) && !HasResult(before, id)
    case WriteCheckpointed(p) =>
      WellFormed(p) && p.runId == runId && LastResult(before, p.callId) == Some(p.resultDigest)
    case Malformed(_, _) => false
    case _ => true
  }

  /** Each result is the first of a call that was executing, and each restore point is bound
      to a result before it. */
  predicate Bound(runId: string, log: seq<Event>) {
    forall i | 0 <= i < |log| :: Follows(runId, log[..i], log[i])
  }

  lemma BoundSnoc(runId: string, log: seq<Event>, e: Event)
    requires Bound(runId, log) && Follows(runId, log, e)
    ensures Bound(runId, log + [e])
  {
    hide Follows;
    var longer := log + [e];
    forall i | 0 <= i < |longer|
      ensures Follows(runId, longer[..i], longer[i])
    {
      assert i < |log| ==> longer[..i] == log[..i];
      assert longer[..|log|] == log;
    }
  }

  lemma BoundPrefix(runId: string, log: seq<Event>, n: nat)
    requires Bound(runId, log) && n <= |log|
    ensures Bound(runId, log[..n])
  {
    hide Follows;
    forall i | 0 <= i < n
      ensures Follows(runId, log[..n][..i], log[..n][i])
    {
      assert log[..n][..i] == log[..i];
    }
  }

  lemma HasResultSnoc(log: seq<Event>, e: Event, id: string)
    ensures HasResult(log + [e], id) <==> HasResult(log, id) || (e.ToolResulted? && e.callId == id)
    ensures Started(log + [e], id) <==>
              || Started(log, id)
              || (e.ToolCallStatusChanged? && e.call.callId == id && e.call.status == Executing)
  {
    var longer := log + [e];
    assert longer[|log|] == e && forall i | 0 <= i < |log| :: longer[i] == log[i];
  }

  lemma LastResultSnoc(log: seq<Event>, e: Event, id: string)
    ensures LastResult(log + [e], id) ==
            if e.ToolResulted? && e.ok && e.callId == id then e.output else LastResult(log, id)
    ensures PointsIn(log + [e]) == PointsIn(log) + (if e.WriteCheckpointed? then [e.checkpoint] else [])
  {
    assert (log + [e])[..|log|] == log;
  }

  lemma {:induction false} ResultIsAnswer(log: seq<Event>, id: string)
    ensures LastResult(log, id).Some? ==> HasResult(log, id)
  {
    if log != [] {
      var n := |log| - 1;
      assert log == log[..n] + [log[n]];
      HasResultSnoc(log[..n], log[n], id);
      hide HasResult;
      ResultIsAnswer(log[..n], id);
    }
  }

  /** Such a log can be read. */
  lemma {:induction false} BoundIsAcceptable(runId: string, log: seq<Event>)
    requires Bound(runId, log)
    ensures AllAcceptable(runId, log)
  {
    if log != [] {
      var n := |log| - 1;
      var shorter, last := log[..n], log[n];
      BoundPrefix(runId, log, n);
      BoundIsAcceptable(runId, shorter);
      assert log == shorter + [last] && Follows(runId, shorter, last);
      hide Bound, HasResult, Started, WellFormed, LastResult;
      forall e | e in log
        ensures Acceptable(runId, log, e)
      {
        if e in shorter {
          StaysAcceptable(runId, shorter, last, e);
        } else {
          LastIsAcceptable(runId, shorter, last);
        }
      }
    }
  }

  lemma StaysAcceptable(runId: string, log: seq<Event>, last: Event, e: Event)
    requires Acceptable(runId, log, e) && Follows(runId, log, last)
    ensures Acceptable(runId, log + [last], e)
  {
    if e.WriteCheckpointed? {
      LastResultSnoc(log, last, e.checkpoint.callId);
      ResultIsAnswer(log, e.checkpoint.callId);
    }
    hide LastResult, HasResult, Started, WellFormed;
  }

  lemma LastIsAcceptable(runId: string, log: seq<Event>, last: Event)
    requires Follows(runId, log, last)
    ensures Acceptable(runId, log + [last], last)
  {
    if last.WriteCheckpointed? {
      LastResultSnoc(log, last, last.checkpoint.callId);
    }
    hide LastResult, HasResult, Started, WellFormed;
  }

  // ----- Events that are passed over -----

  predicate AllNeutral(events: seq<Event>) {
    forall i | 0 <= i < |events| :: Neutral(events[i])
  }

  /** The log has grown by neutral events only. */
  predicate GrewQuietly(log: seq<Event>, longer: seq<Event>) {
    log <= longer && AllNeutral(longer[|log|..])
  }

  lemma QuietOnce(log: seq<Event>, e: Event)
    requires Neutral(e)
    ensures GrewQuietly(log, log + [e])
  {
    assert (log + [e])[|log|..] == [e];
  }

  lemma QuietTwice(a: seq<Event>, b: seq<Event>, c: seq<Event>)
    requires GrewQuietly(a, b) && GrewQuietly(b, c)
    ensures GrewQuietly(a, c)
  {
    forall i | 0 <= i < |c[|a|..]|
      ensures Neutral(c[|a|..][i])
    {
      if |a| + i < |b| {
        assert c[|a|..][i] == b[|a|..][i];
      } else {
        assert c[|a|..][i] == c[|b|..][|a| + i - |b|];
      }
    }
  }

  /** What reading sees of a log is the same after neutral events. */
  ghost predicate ReadsAlike(runId: string, log: seq<Event>, longer: seq<Event>) {
    && (Bound(runId, log) ==> Bound(runId, longer))
    && PointsIn(longer) == PointsIn(log)
    && forall id :: (HasResult(longer, id) <==> HasResult(log, id)) && (Started(log, id) ==> Started(longer, id))
                    && LastResult(longer, id) == LastResult(log, id)
  }

  lemma {:induction false} QuietReadsAlike(runId: string, log: seq<Event>, events: seq<Event>)
    requires AllNeutral(events)
    ensures ReadsAlike(runId, log, log + events)
    decreases |events|
  {
    if events == [] {
      assert log + events == log;
    } else {
      var n := |events| - 1;
      var longer := log + events[..n];
      assert log + events == longer + [events[n]];
      QuietReadsAlike(runId, log, events[..n]);
      NeutralReadsAlike(runId, longer, events[n]);
      hide Bound, HasResult, Started, LastResult, PointsIn;
    }
  }

  lemma NeutralReadsAlike(runId: string, log: seq<Event>, e: Event)
    requires Neutral(e)
    ensures ReadsAlike(runId, log, log + [e])
  {
    if Bound(runId, log) {
      BoundSnoc(runId, log, e);
    }
    LastResultSnoc(log, e, "");
    hide Bound;
    forall id
      ensures HasResult(log + [e], id) <==> HasResult(log, id)
      ensures Started(log, id) ==> Started(log + [e], id)
      ensures LastResult(log + [e], id) == LastResult(log, id)
    {
      HasResultSnoc(log, e, id);
      LastResultSnoc(log, e, id);
    }
  }

  lemma GrewReadsAlike(runId: string, log: seq<Event>, longer: seq<Event>)
    requires GrewQuietly(log, longer)
    ensures ReadsAlike(runId, log, longer)
  {
    QuietReadsAlike(runId, log, longer[|log|..]);
    assert longer == log + longer[|log|..];
  }

  // ----- One call -----

  /** The restore point that a call leaves, if any. */
  function PointsBy(c: Config, response: Option<string>, a: Answers): seq<Checkpoint> {
    if MayRun(c, response, a) && a.result.Answered? && a.result.value.ok && a.backedUp.value
       && a.bound.Answered? && a.bound.value.Some?
    then [a.bound.value.value] else []
  }

  /** The tool reports a digest, and what is bound is a restore point for it, as the recovery
      adapter makes them. */
  predicate Genuine(runId: string, callId: string, a: Answers) {
    a.result.Answered? && a.result.value.ok ==>
      && !Blank(callId) && a.result.value.output.Some? && DigestShown(a.result.value.output.value)
      && (a.bound.Answered? && a.bound.value.Some? ==>
            var p := a.bound.value.value;
            && WellFormed(p) && p.runId == runId && p.callId == callId
            && p.resultDigest == a.result.value.output.value)
  }

  /** What the recovery adapter binds is genuine. */
  lemma BindingIsGenuine(runId: string, before: Recovery.Disk, after: Recovery.Disk, callId: string, path: string,
                         output: ContentDigest, inside: string -> bool)
    requires !Blank(runId) && !Blank(callId) && !Blank(path) && DigestShown(output)
    ensures var record := Recovery.CreateBackup(before, callId, path).1;
            var bound := Recovery.BindSuccessfulWrite(runId, after, Some(output), record, inside);
            bound.Some? ==>
              && WellFormed(bound.value) && bound.value.runId == runId && bound.value.callId == callId
              && bound.value.resultDigest == output
  {
    assert Recovery.BackupName(callId)[|callId|] == '.';
  }

  /** From one log to a later one, in which one call may have been answered and bound. */
  ghost predicate Binds(runId: string, log: seq<Event>, longer: seq<Event>, callId: string, points: seq<Checkpoint>) {
    Bound(runId, log) && !HasResult(log, callId) ==>
      Bound(runId, longer) && PointsIn(longer) == PointsIn(log) + points
  }

  lemma QuietThenBinds(runId: string, log: seq<Event>, longer: seq<Event>, last: seq<Event>, callId: string,
                       points: seq<Checkpoint>)
    requires GrewQuietly(log, longer) && Binds(runId, longer, last, callId, points)
    ensures Binds(runId, log, last, callId, points)
  {
    GrewReadsAlike(runId, log, longer);
    hide GrewQuietly, Bound, HasResult, Started, LastResult, PointsIn;
  }

  lemma BindsThenQuiet(runId: string, log: seq<Event>, longer: seq<Event>, last: seq<Event>, callId: string,
                       points: seq<Checkpoint>)
    requires Binds(runId, log, longer, callId, points) && GrewQuietly(longer, last)
    ensures Binds(runId, log, last, callId, points)
  {
    GrewReadsAlike(runId, longer, last);
    hide GrewQuietly, Bound, HasResult, Started, LastResult, PointsIn;
  }

  lemma QuietBinds(runId: string, log: seq<Event>, longer: seq<Event>, callId: string)
    requires GrewQuietly(log, longer)
    ensures Binds(runId, log, longer, callId, [])
  {
    GrewReadsAlike(runId, log, longer);
    hide GrewQuietly, Bound, HasResult, Started, LastResult;
    assert PointsIn(log) + [] == PointsIn(log);
  }

  lemma QuietEmit(l: Live, e: Event)
    requires Neutral(e)
    ensures GrewQuietly(l.log, Emit(l, e).log)
  {
    QuietOnce(l.log, e);
  }

  lemma QuietSelf(log: seq<Event>)
    ensures GrewQuietly(log, log)
  {
  }

  lemma TransitionIsQuiet(c: Config, l: Live, status: SessionStatus)
    requires SessionEdge(l.session.status, status)
    ensures GrewQuietly(l.log, TransitionSession(c, l, status).log)
  {
    var s := l.session.(status := status, updatedAt := Now(c, l));
    var moved := Emit(l.(session := s), SessionStatusChanged(s));
    QuietOnce(l.log, SessionStatusChanged(s));
    QuietOnce(moved.log, Noted(s.runId, "session_completed"));
    QuietTwice(l.log, moved.log, Note(moved, "session_completed").log);
    hide GrewQuietly;
  }

  lemma FailIsQuiet(c: Config, l: Live)
    ensures GrewQuietly(l.log, FailSession(c, l).log)
  {
    QuietSelf(l.log);
    hide GrewQuietly, TransitionSession;
    if SessionEdge(l.session.status, Failed) {
      TransitionIsQuiet(c, l, Failed);
    }
  }

  lemma RecordIsQuiet(c: Config, f: Flight, status: CallStatus)
    requires CallEdge(f.call.status, status)
    ensures RecordStatus(c, f, status).Some?
    ensures var g := RecordStatus(c, f, status).value;
            && GrewQuietly(f.live.log, g.live.log) && g.call.callId == f.call.callId
            && g.live.session.runId == f.live.session.runId
            && (status == Executing ==> Started(g.live.log, f.call.callId))
  {
    var call := f.call.(status := status, updatedAt := Now(c, f.live));
    var e := ToolCallStatusChanged(call);
    var noted := Noticed(c, f, call);
    QuietOnce(f.live.log, e);
    QuietSelf(noted.log);
    HasResultSnoc(f.live.log, e, f.call.callId);
    hide GrewQuietly, Started, TransitionSession;
    if noted.pending != {} && noted.session.status == Running {
      TransitionIsQuiet(c, noted, WaitingApproval);
      TransitionRun(c, noted, WaitingApproval);
    } else if noted.pending == {} && noted.session.status == WaitingApproval {
      TransitionIsQuiet(c, noted, Running);
      TransitionRun(c, noted, Running);
    }
    var g := RecordStatus(c, f, status).value;
    QuietTwice(f.live.log, noted.log, g.live.log);
    GrewReadsAlike(f.live.session.runId, noted.log, g.live.log);
    hide Bound, HasResult, LastResult, PointsIn;
  }

  lemma TransitionRun(c: Config, l: Live, status: SessionStatus)
    requires SessionEdge(l.session.status, status)
    ensures TransitionSession(c, l, status).session.runId == l.session.runId
  {
  }

  /** The executor's answer, and its restore point. */
  lemma ResultBinds(runId: string, log: seq<Event>, callId: string, a: Answers, points: seq<Checkpoint>)
    requires Genuine(runId, callId, a) && a.result.Answered? && Started(log, callId)
    requires points == [] || (a.result.value.ok && a.bound.Answered? && a.bound.value.Some?
                              && points == [a.bound.value.value])
    ensures var answered := log + [ToolResulted(runId, callId, a.result.value.ok, a.result.value.output)];
            Binds(runId, log, if points == [] then answered else answered + [WriteCheckpointed(points[0])], callId,
                  points)
  {
    var e := ToolResulted(runId, callId, a.result.value.ok, a.result.value.output);
    LastResultSnoc(log, e, callId);
    hide WellFormed, Started, HasResult, Bound, PointsIn, LastResult;
    if Bound(runId, log) && !HasResult(log, callId) {
      BoundSnoc(runId, log, e);
      if points != [] {
        var p := WriteCheckpointed(points[0]);
        LastResultSnoc(log + [e], p, callId);
        BoundSnoc(runId, log + [e], p);
      }
    }
    assert PointsIn(log) + [] == PointsIn(log);
  }

  lemma PerformBinds(c: Config, f: Flight, response: Option<string>, decision: PermissionDecision, a: Answers)
    requires f.call.status == Executing && Started(f.live.log, f.call.callId) && MayRun(c, response, a)
    requires Genuine(f.live.session.runId, f.call.callId, a)
    ensures Binds(f.live.session.runId, f.live.log, Perform(c, f, decision, a).flight.live.log, f.call.callId,
                  PointsBy(c, response, a))
  {
    var runId, id := f.live.session.runId, f.call.callId;
    var points := PointsBy(c, response, a);
    assert MayRun(c, response, a) && a.backedUp.Answered?;
    hide MayRun, Started, Binds, RecordStatus, GrewQuietly;
    if a.result.Raises? {
      RecordIsQuiet(c, f, CallFailed);
      QuietBinds(runId, f.live.log, RecordStatus(c, f, CallFailed).value.live.log, id);
    } else {
      ResultBinds(runId, f.live.log, id, a, points);
      var result := a.result.value;
      var f0 := f.(live := Emit(f.live, ToolResulted(runId, id, result.ok, result.output)));
      var f1 := if points == [] then f0 else f0.(live := Emit(f0.live, WriteCheckpointed(points[0])));
      assert points != [] ==> a.backedUp == Answered(true) && points[0].runId == runId;
      PerformEnds(c, f, f1, decision, a, points);
      BindsThenQuiet(runId, f.live.log, f1.live.log, Perform(c, f, decision, a).flight.live.log, id, points);
    }
  }

  lemma PerformEnds(c: Config, f: Flight, f1: Flight, decision: PermissionDecision, a: Answers, points: seq<Checkpoint>)
    requires f.call.status == Executing && a.result.Answered? && f1.call == f.call
    requires var runId, id, result := f.live.session.runId, f.call.callId, a.result.value;
             var f0 := f.(live := Emit(f.live, ToolResulted(runId, id, result.ok, result.output)));
             var binds := a.backedUp == Answered(true) && result.ok && a.bound.Answered? && a.bound.value.Some?;
             if points == [] then !binds && f1 == f0
             else binds && a.bound.value.value == points[0] && points[0].runId == runId
                  && f1 == f0.(live := Emit(f0.live, WriteCheckpointed(points[0])))
    ensures GrewQuietly(f1.live.log, Perform(c, f, decision, a).flight.live.log)
  {
    var status := if a.result.value.ok then Succeeded else CallFailed;
    assert CallEdge(Executing, Succeeded) && CallEdge(Executing, CallFailed);
    hide GrewQuietly, RecordStatus, CallEdge;
    QuietSelf(f1.live.log);
    RecordIsQuiet(c, f1, status);
    var done := RecordStatus(c, f1, status).value;
    if a.mapped.Answered? {
      var e := FactMapped(f.live.session.runId, a.mapped.value);
      QuietEmit(done.live, e);
      QuietTwice(f1.live.log, done.live.log, Emit(done.live, e).log);
    }
  }

  lemma AdmitBinds(c: Config, f: Flight, response: Option<string>, decision: PermissionDecision, a: Answers)
    requires Answerable(response) && Genuine(f.live.session.runId, f.call.callId, a)
    requires a.decision == Answered(decision) && a.hook.Answered? && !a.hook.value.denies
    requires decision.effect == Allow || Approves(c, decision.effect, response, a)
    requires f.call.status == if decision.effect == Ask then AwaitingApproval else Entry(response)
    ensures Binds(f.live.session.runId, f.live.log, Admit(c, f, decision, a).flight.live.log, f.call.callId,
                  PointsBy(c, response, a))
  {
    var runId, id := f.live.session.runId, f.call.callId;
    AdmitStarts(c, f, response, decision, a);
    hide Genuine, Binds, GrewQuietly, Started, Perform, Admit, PointsBy;
    if MayRun(c, response, a) {
      var run := Admitting(c, f, decision);
      PerformBinds(c, run, response, decision, a);
      QuietThenBinds(runId, f.live.log, run.live.log, Perform(c, run, decision, a).flight.live.log, id,
                     PointsBy(c, response, a));
    } else {
      NothingBound(c, response, a);
      QuietBinds(runId, f.live.log, Admit(c, f, decision, a).flight.live.log, id);
    }
  }

  lemma NothingBound(c: Config, response: Option<string>, a: Answers)
    requires !MayRun(c, response, a)
    ensures PointsBy(c, response, a) == []
  {
  }

  /** The flight as the executor takes it over. */
  function Admitting(c: Config, f: Flight, decision: PermissionDecision): Flight {
    var approved := if decision.effect == Ask then RecordStatus(c, f, Approved) else Some(f);
    if approved.None? then f
    else
      var f0 := approved.value.(live := Note(approved.value.live, "sandbox_decision"));
      var executing := RecordStatus(c, f0, Executing);
      if executing.None? then f
      else executing.value.(live := executing.value.live.(runs := f0.live.runs + [|f0.live.log|]))
  }

  lemma AdmitStarts(c: Config, f: Flight, response: Option<string>, decision: PermissionDecision, a: Answers)
    requires Answerable(response) && a.decision == Answered(decision) && a.hook.Answered? && !a.hook.value.denies
    requires decision.effect == Allow || Approves(c, decision.effect, response, a)
    requires f.call.status == if decision.effect == Ask then AwaitingApproval else Entry(response)
    ensures if MayRun(c, response, a) then
              var run := Admitting(c, f, decision);
              && Admit(c, f, decision, a) == Perform(c, run, decision, a) && run.call.status == Executing
              && GrewQuietly(f.live.log, run.live.log) && Started(run.live.log, f.call.callId)
              && run.call.callId == f.call.callId && run.live.session.runId == f.live.session.runId
            else GrewQuietly(f.live.log, Admit(c, f, decision, a).flight.live.log)
  {
    hide RecordStatus, Perform, GrewQuietly, Started, FinalEffect;
    RecordRuns(c, f, Approved);
    QuietSelf(f.live.log);
    if decision.effect == Ask {
      RecordIsQuiet(c, f, Approved);
    }
    var f0 := if decision.effect == Ask then RecordStatus(c, f, Approved).value else f;
    var f1 := f0.(live := Note(f0.live, "sandbox_decision"));
    QuietEmit(f0.live, Noted(f0.live.session.runId, "sandbox_decision"));
    QuietTwice(f.live.log, f0.live.log, f1.live.log);
    RecordRuns(c, f1, SandboxDenied);
    RecordRuns(c, f1, Executing);
    if CallEdge(f1.call.status, SandboxDenied) {
      RecordIsQuiet(c, f1, SandboxDenied);
      QuietTwice(f.live.log, f1.live.log, RecordStatus(c, f1, SandboxDenied).value.live.log);
    }
    if CallEdge(f1.call.status, Executing) {
      RecordIsQuiet(c, f1, Executing);
      QuietTwice(f.live.log, f1.live.log, RecordStatus(c, f1, Executing).value.live.log);
    }
  }

  lemma PermitBinds(c: Config, f: Flight, response: Option<string>, decision: PermissionDecision, hook: HookDecision,
                    a: Answers)
    requires Answerable(response) && Genuine(f.live.session.runId, f.call.callId, a)
    requires a.decision == Answered(decision) && a.hook == Answered(hook)
    requires f.call.status == if decision.effect == Ask then AwaitingApproval else Entry(response)
    ensures var asks := decision.effect == Ask && response.None?;
            Binds(f.live.session.runId, f.live.log, Permit(c, f, decision, hook, asks, response, a).flight.live.log,
                  f.call.callId, PointsBy(c, response, a))
  {
    hide RecordStatus, Admit, FinalEffect, Genuine, Binds, GrewQuietly, PointsBy;
    var runId, id := f.live.session.runId, f.call.callId;
    var asks := decision.effect == Ask && response.None?;
    var prompts := asks && c.approvalMode == InlinePrompt && !hook.denies && c.canPrompt;
    var f0 := NoteIf(f, prompts, "approval_prompted");
    QuietSelf(f.live.log);
    QuietEmit(f.live, Noted(runId, "approval_prompted"));
    if prompts && a.prompt.Raises? {
      NothingBound(c, response, a);
      QuietBinds(runId, f.live.log, f0.live.log, id);
      return;
    }
    var answer := if prompts then Some(a.prompt.value) else response;
    AllowedIff(c.approvalMode, decision.effect, hook.denies, answer);
    var f1 := f0.(live := Note(f0.live, "permission_decision"));
    QuietEmit(f0.live, Noted(runId, "permission_decision"));
    QuietTwice(f.live.log, f0.live.log, f1.live.log);
    if FinalEffect(c.approvalMode, decision.effect, hook.denies, answer) == Allow {
      AdmitBinds(c, f1, response, decision, a);
      QuietThenBinds(runId, f.live.log, f1.live.log, Admit(c, f1, decision, a).flight.live.log, id,
                     PointsBy(c, response, a));
    } else {
      NothingBound(c, response, a);
      assert CallEdge(f1.call.status, PolicyDenied);
      RecordIsQuiet(c, f1, PolicyDenied);
      QuietTwice(f.live.log, f1.live.log, RecordStatus(c, f1, PolicyDenied).value.live.log);
      QuietBinds(runId, f.live.log, Permit(c, f, decision, hook, asks, response, a).flight.live.log, id);
    }
  }

  lemma RunToolBinds(c: Config, f: Flight, arguments: Arguments, response: Option<string>, a: Answers)
    requires Answerable(response) && Genuine(f.live.session.runId, f.call.callId, a) && f.call.status == Entry(response)
    ensures Binds(f.live.session.runId, f.live.log, RunTool(c, f, arguments, response, a).flight.live.log,
                  f.call.callId, PointsBy(c, response, a))
  {
    hide RecordStatus, Permit, FinalEffect, Genuine, Binds, GrewQuietly, PointsBy;
    var runId, id := f.live.session.runId, f.call.callId;
    var intent := ToolIntent(runId, id, f.call.toolName, arguments);
    var f0 := f.(live := Emit(f.live, intent));
    QuietEmit(f.live, intent);
    if a.decision.Raises? || a.hook.Raises? {
      NothingBound(c, response, a);
      QuietBinds(runId, f.live.log, f0.live.log, id);
      return;
    }
    var f1 := NoteIf(f0, a.hook.value.hookId.Some?, "hook_decision");
    QuietEmit(f0.live, Noted(runId, "hook_decision"));
    QuietTwice(f.live.log, f0.live.log, Note(f0.live, "hook_decision").log);
    var asks := a.decision.value.effect == Ask && response.None?;
    RecordRuns(c, f1, AwaitingApproval);
    var f2 := f1;
    if asks {
      RecordIsQuiet(c, f1, AwaitingApproval);
      f2 := RecordStatus(c, f1, AwaitingApproval).value;
      QuietTwice(f.live.log, f1.live.log, f2.live.log);
    }
    PermitBinds(c, f2, response, a.decision.value, a.hook.value, a);
    QuietThenBinds(runId, f.live.log, f2.live.log,
                   Permit(c, f2, a.decision.value, a.hook.value, asks, response, a).flight.live.log, id,
                   PointsBy(c, response, a));
  }

  // ----- What a session does besides running a tool -----

  lemma LandIsQuiet(c: Config, ran: Ran)
    ensures GrewQuietly(ran.flight.live.log, Land(c, ran).live.log)
  {
    FailIsQuiet(c, ran.flight.live);
    QuietSelf(ran.flight.live.log);
    hide GrewQuietly, FailSession;
  }

  /** A result is there only for a call that has been executing. */
  lemma ResultMeansRan(runId: string, log: seq<Event>, id: string)
    requires Bound(runId, log) && Fold(runId, log).Some? && HasResult(log, id)
    ensures id in Fold(runId, log).value.calls && Rank(Fold(runId, log).value.calls[id].status) >= 3
  {
    hide Fold, Bound, HasResult;
    var j := ResultAfterStart(runId, log, id);
    StatusAt(runId, log, j);
    CallMovesOn(runId, log, j + 1, id);
  }

  lemma ResultAfterStart(runId: string, log: seq<Event>, id: string) returns (j: nat)
    requires Bound(runId, log) && HasResult(log, id)
    ensures j < |log| && log[j].ToolCallStatusChanged? && log[j].call.callId == id && log[j].call.status == Executing
  {
    var i :| 0 <= i < |log| && log[i].ToolResulted? && log[i].callId == id;
    assert Follows(runId, log[..i], log[i]);
    hide Bound, ShowsDigest, HasResult;
    j :| 0 <= j < i && log[..i][j].ToolCallStatusChanged? && log[..i][j].call.callId == id
         && log[..i][j].call.status == Executing;
    assert log[j] == log[..i][j];
  }

  lemma LaunchBinds(c: Config, l: Live, toolName: string, arguments: Arguments, a: Answers)
    requires Genuine(l.session.runId, CallId(l.sequence + 1), a)
    ensures Binds(l.session.runId, l.log, Launch(c, l, toolName, arguments, a).flight.live.log, CallId(l.sequence + 1),
                  PointsBy(c, None, a))
  {
    var l0 := l.(sequence := l.sequence + 1);
    var call := NewCall(c, l0, toolName, arguments);
    var f := Flight(Emit(l0, ToolCallRequested(call)), call);
    QuietEmit(l0, ToolCallRequested(call));
    hide Genuine, Binds, GrewQuietly, PointsBy, RunTool, CallId;
    RunToolBinds(c, f, arguments, None, a);
    QuietThenBinds(l.session.runId, l.log, f.live.log, RunTool(c, f, arguments, None, a).flight.live.log,
                   CallId(l.sequence + 1), PointsBy(c, None, a));
  }

  /** The restore points of a fresh call. */
  function PointsOfCall(c: Config, l: Live, toolName: string, a: Answers): seq<Checkpoint> {
    if Accepting(l) && !Blank(toolName) then PointsBy(c, None, a) else []
  }

  lemma ExecuteBinds(c: Config, l: Live, toolName: string, arguments: Arguments, a: Answers)
    requires Genuine(l.session.runId, CallId(l.sequence + 1), a)
    ensures Binds(l.session.runId, l.log, Execute(c, l, toolName, arguments, a).live.log, CallId(l.sequence + 1),
                  PointsOfCall(c, l, toolName, a))
  {
    var runId, id := l.session.runId, CallId(l.sequence + 1);
    QuietSelf(l.log);
    QuietBinds(runId, l.log, l.log, id);
    if Accepting(l) && !Blank(toolName) {
      var ran := Launch(c, l, toolName, arguments, a);
      var landed := Land(c, ran).live;
      var last := Execute(c, l, toolName, arguments, a).live;
      LaunchBinds(c, l, toolName, arguments, a);
      LandIsQuiet(c, ran);
      AskedIsQuiet(c, l, toolName, arguments, a);
      hide Genuine, Binds, GrewQuietly, PointsBy, CallId, Land, Launch, Execute;
      QuietTwice(ran.flight.live.log, landed.log, last.log);
      BindsThenQuiet(runId, l.log, ran.flight.live.log, last.log, id, PointsBy(c, None, a));
    }
  }

  lemma AskedIsQuiet(c: Config, l: Live, toolName: string, arguments: Arguments, a: Answers)
    requires Accepting(l) && !Blank(toolName)
    ensures GrewQuietly(Land(c, Launch(c, l, toolName, arguments, a)).live.log,
                        Execute(c, l, toolName, arguments, a).live.log)
  {
    hide Launch, FailSession, NewApproval, GrewQuietly;
    var ran := Launch(c, l, toolName, arguments, a);
    var t := Land(c, ran);
    QuietSelf(t.live.log);
    if t.outcome.Finished? && t.outcome.final == Ask {
      var request := NewApproval(c, t.live, t.outcome.call, ran.ending.decision, a);
      if request.Some? {
        QuietEmit(t.live, ApprovalRequested(request.value));
      }
    }
  }

  /** The restore points of a call taken up again. */
  function PointsOfResumed(c: Config, l: Live, o: Offer, response: string, a: Answers): seq<Checkpoint> {
    if Resumes(l, o) then PointsBy(c, Some(response), a) else []
  }

  lemma ResumeBinds(c: Config, l: Live, o: Offer, response: string, a: Answers)
    requires Genuine(l.session.runId, o.call.callId, a) && response in {"approve", "deny"}
    ensures Binds(l.session.runId, l.log, ResumeCall(c, l, o.call, o.arguments, response, a).live.log, o.call.callId,
                  PointsOfResumed(c, l, o, response, a))
  {
    var runId, id := l.session.runId, o.call.callId;
    QuietSelf(l.log);
    QuietBinds(runId, l.log, l.log, id);
    if Resumes(l, o) {
      var ran := RunTool(c, Flight(l, o.call), o.arguments, Some(response), a);
      hide Genuine, Binds, GrewQuietly, PointsBy, RunTool, Land;
      RunToolBinds(c, Flight(l, o.call), o.arguments, Some(response), a);
      LandIsQuiet(c, ran);
      BindsThenQuiet(runId, l.log, ran.flight.live.log, Land(c, ran).live.log, id, PointsBy(c, Some(response), a));
    }
  }

  lemma StartIsQuiet(c: Config, l: Live)
    requires l.session.status == Created
    ensures GrewQuietly(l.log, Start(c, l).log)
  {
    var created := Emit(l, SessionCreated(l.session));
    QuietEmit(l, SessionCreated(l.session));
    TransitionIsQuiet(c, created, Running);
    QuietTwice(l.log, created.log, Start(c, l).log);
  }

  lemma TimeOutIsQuiet(c: Config, l: Live)
    ensures GrewQuietly(l.log, TimeOut(c, l).log)
  {
    var noted := Note(l, "session_timed_out");
    QuietSelf(l.log);
    QuietEmit(l, Noted(l.session.runId, "session_timed_out"));
    FailIsQuiet(c, noted);
    QuietTwice(l.log, noted.log, FailSession(c, noted).log);
    hide GrewQuietly, FailSession;
  }

  lemma LeaveIsQuiet(c: Config, l: Live, raised: bool, timedOut: bool)
    ensures GrewQuietly(l.log, Leave(c, l, raised, timedOut).log)
  {
    hide GrewQuietly, FailSession, TimeOut, TransitionSession;
    var left :=
      if raised then (if l.session.status == WaitingApproval then l else FailSession(c, l))
      else if timedOut then TimeOut(c, l)
      else Close(c, l);
    QuietSelf(l.log);
    FailIsQuiet(c, l);
    TimeOutIsQuiet(c, l);
    if l.session.status == Running {
      TransitionIsQuiet(c, l, Completed);
    }
    QuietSelf(left.log);
    QuietEmit(left, Noted(left.session.runId, "run_completed"));
    QuietTwice(l.log, left.log, Leave(c, l, raised, timedOut).log);
  }

  lemma AnswerIsQuiet(c: Config, l: Live, verified: bool)
    requires AnswerFinally(c, l, verified).Some?
    ensures GrewQuietly(l.log, AnswerFinally(c, l, verified).value.log)
  {
    var submitted := Note(l, "final_answer_submitted");
    var checked := Note(submitted, "groundguard_check");
    QuietEmit(l, Noted(l.session.runId, "final_answer_submitted"));
    QuietEmit(submitted, Noted(submitted.session.runId, "groundguard_check"));
    QuietTwice(l.log, submitted.log, checked.log);
    TransitionIsQuiet(c, checked.(blocked := false), Completed);
    QuietTwice(l.log, checked.log, TransitionSession(c, checked.(blocked := false), Completed).log);
    hide GrewQuietly, TransitionSession;
  }

  lemma RulingIsQuiet(runId: string, log: seq<Event>, c: Command)
    requires c.DecideApproval?
    ensures AllNeutral(Ruling(runId, log, c)) && GrewQuietly(log, log + Ruling(runId, log, c))
  {
    var events := Ruling(runId, log, c);
    hide Replayed;
    assert (log + events)[|log|..] == events;
  }

  lemma {:induction false} DenyingIsQuiet(runId: string, log: seq<Event>, approvals: map<string, ApprovalRequest>,
                                          order: seq<string>, c: Command)
    requires c.Cancel? && forall i | 0 <= i < |order| :: order[i] in approvals
    ensures GrewQuietly(log, DenyPending(runId, log, approvals, order, c).log)
    decreases |order|
  {
    QuietSelf(log);
    if order != [] {
      var a := approvals[order[0]];
      if !a.verdict.Pending? {
        DenyingIsQuiet(runId, log, approvals, order[1..], c);
      } else {
        var late := Expired(a, At(c.checks(|log|))) == Some(true);
        var at := At(c.clock(|log|));
        var decided := if late then Expire(a, c.actor, at) else Decide(a, Denial(c.actor, "session_cancelled", at));
        var noted := if late then log + [Noted(runId, "approval_expired")] else log;
        if decided.Some? {
          var e := ApprovalDecided(decided.value);
          QuietOnce(log, Noted(runId, "approval_expired"));
          QuietOnce(noted, e);
          hide GrewQuietly, Expire, Decide, Expired;
          QuietTwice(log, noted, noted + [e]);
          DenyingIsQuiet(runId, noted + [e], approvals, order[1..], c);
          QuietTwice(log, noted + [e], DenyPending(runId, noted + [e], approvals, order[1..], c).log);
        }
      }
    }
  }

  lemma {:induction false} RefusingIsQuiet(log: seq<Event>, calls: map<string, SessionToolCall>, order: seq<string>,
                                           c: Command)
    requires c.Cancel? && forall i | 0 <= i < |order| :: order[i] in calls
    ensures GrewQuietly(log, RefuseWaiting(log, calls, order, c))
    decreases |order|
  {
    QuietSelf(log);
    if order != [] {
      var call := calls[order[0]];
      var e := ToolCallStatusChanged(call.(status := PolicyDenied, updatedAt := At(c.clock(|log|))));
      var next := if call.status == AwaitingApproval then log + [e] else log;
      QuietOnce(log, e);
      hide GrewQuietly;
      RefusingIsQuiet(next, calls, order[1..], c);
      QuietTwice(log, next, RefuseWaiting(next, calls, order[1..], c));
    }
  }

  lemma CancellingIsQuiet(runId: string, log: seq<Event>, c: Command)
    requires c.Cancel?
    ensures GrewQuietly(log, Cancelling(runId, log, c).log)
  {
    hide GrewQuietly, DenyPending, RefuseWaiting, Fold;
    QuietSelf(log);
    var r := Replayed(runId, log);
    if r.Some? && !SessionOver(r.value.session.value.status)
       && Orders(c.approvalOrder, r.value.approvals.Keys) && Orders(c.callOrder, r.value.calls.Keys) {
      var actor := if c.actor == "" then r.value.session.value.actorId else c.actor;
      var denied := DenyPending(runId, log, r.value.approvals, c.approvalOrder, c.(actor := actor));
      DenyingIsQuiet(runId, log, r.value.approvals, c.approvalOrder, c.(actor := actor));
      if denied.done {
        var refused := RefuseWaiting(denied.log, r.value.calls, c.callOrder, c);
        var s := r.value.session.value.(status := Cancelled, updatedAt := At(c.clock(|refused|)));
        RefusingIsQuiet(denied.log, r.value.calls, c.callOrder, c);
        QuietTwice(log, denied.log, refused);
        QuietOnce(refused, SessionStatusChanged(s));
        QuietTwice(log, refused, refused + [SessionStatusChanged(s)]);
        QuietOnce(refused + [SessionStatusChanged(s)], Noted(runId, "run_completed"));
        var last := refused + [SessionStatusChanged(s)] + [Noted(runId, "run_completed")];
        QuietTwice(log, refused + [SessionStatusChanged(s)], last);
        assert last == refused + [SessionStatusChanged(s), Noted(runId, "run_completed")];
      }
    }
  }

  // ----- A decision in between -----

  lemma OneMoreAlike(runId: string, log: seq<Event>, longer: seq<Event>, e: Event)
    requires ReadsAlike(runId, log, longer)
    ensures ReadsAlike(runId, log + [e], longer + [e])
  {
    hide WellFormed, Started, HasResult, Bound, PointsIn, LastResult;
    LastResultSnoc(log, e, "");
    LastResultSnoc(longer, e, "");
    if Bound(runId, log + [e]) {
      BoundPrefix(runId, log + [e], |log|);
      BoundLast(runId, log, e);
      assert (log + [e])[..|log|] == log;
      BoundSnoc(runId, longer, e);
    }
    forall id
      ensures HasResult(longer + [e], id) <==> HasResult(log + [e], id)
      ensures Started(log + [e], id) ==> Started(longer + [e], id)
      ensures LastResult(longer + [e], id) == LastResult(log + [e], id)
    {
      HasResultSnoc(log, e, id);
      HasResultSnoc(longer, e, id);
      LastResultSnoc(log, e, id);
      LastResultSnoc(longer, e, id);
    }
  }

  lemma BoundLast(runId: string, log: seq<Event>, e: Event)
    requires Bound(runId, log + [e])
    ensures Follows(runId, log, e)
  {
    hide Follows;
    assert (log + [e])[..|log|] == log && (log + [e])[|log|] == e;
  }

  lemma {:induction false} InsertedReadsAlike(runId: string, head: seq<Event>, events: seq<Event>, tail: seq<Event>)
    requires AllNeutral(events)
    ensures ReadsAlike(runId, head + tail, head + events + tail)
    decreases |tail|
  {
    if tail == [] {
      assert head + tail == head && head + events + tail == head + events;
      QuietReadsAlike(runId, head, events);
    } else {
      LastApart(head, events, tail);
      hide ReadsAlike, AllNeutral;
      var n := |tail| - 1;
      InsertedReadsAlike(runId, head, events, tail[..n]);
      OneMoreAlike(runId, head + tail[..n], head + events + tail[..n], tail[n]);
    }
  }

  // ----- Every command -----

  /** Whatever the command executes reports a digest and is bound genuinely. */
  predicate BindsGenuinely(w: World, cmd: Command)
    decreases cmd
  {
    match cmd
    case Call(_, _, a) => w.Open? ==> Genuine(RunIdOf(w), CallId(w.live.sequence + 1), a)
    case ResumePending(callId, _, a) => Genuine(RunIdOf(w), callId, a)
    case Crash(during, _, _) => BindsGenuinely(w, during)
    case Meanwhile(during, _, _) => BindsGenuinely(w, during)
    case _ => true
  }

  /** The restore points a command that does not crash leaves. */
  function PointsFrom(w: World, cmd: Command): seq<Checkpoint>
    decreases cmd
  {
    match cmd
    case Call(_, _, a) => if Permits(w, cmd) then PointsBy(w.config, None, a) else []
    case ResumePending(callId, _, a) =>
      if Permits(w, cmd) then PointsBy(w.config, Some(Response(w.offers[callId])), a) else []
    case Meanwhile(during, _, _) => PointsFrom(w, during)
    case _ => []
  }

  function Response(o: Offer): string {
    if o.approval.verdict.Approval? then "approve" else "deny"
  }

  predicate Reads(runId: string, log: seq<Event>, longer: seq<Event>, points: seq<Checkpoint>) {
    Bound(runId, longer) && PointsIn(longer) == PointsIn(log) + points
  }

  lemma QuietReads(runId: string, log: seq<Event>, longer: seq<Event>)
    requires Bound(runId, log) && GrewQuietly(log, longer)
    ensures Reads(runId, log, longer, [])
  {
    GrewReadsAlike(runId, log, longer);
    hide Bound, GrewQuietly, HasResult, Started, LastResult, PointsIn;
    assert PointsIn(log) + [] == PointsIn(log);
  }

  lemma CallReads(w: World, cmd: Command)
    requires Intact(w) && cmd.Call? && Bound(RunIdOf(w), LogOf(w)) && BindsGenuinely(w, cmd)
    ensures Reads(RunIdOf(w), LogOf(w), LogOf(Next(w, cmd)), PointsFrom(w, cmd))
  {
    hide Intact, Bound, Genuine, Execute, Fold, MayRun, Grants, PointsIn, HasResult, CallId;
    QuietSelf(LogOf(w));
    QuietReads(RunIdOf(w), LogOf(w), LogOf(w));
    if w.Open? && cmd.answers.approvalId !in Grants(w.live) {
      FreshHasNoResult(w);
      ExecuteBinds(w.config, w.live, cmd.toolName, cmd.arguments, cmd.answers);
      NothingIfRefused(w.config, None, cmd.answers);
    }
  }

  lemma NothingIfRefused(c: Config, response: Option<string>, a: Answers)
    ensures !MayRun(c, response, a) ==> PointsBy(c, response, a) == []
  {
  }

  lemma FreshHasNoResult(w: World)
    requires Intact(w) && w.Open? && Bound(RunIdOf(w), LogOf(w))
    ensures !HasResult(LogOf(w), CallId(w.live.sequence + 1))
  {
    var st := Rebuilt(w.live).value;
    var id := CallId(w.live.sequence + 1);
    hide Fold, Bound, HasResult, CallId;
    if id in st.calls {
      CallIdInjective(st.calls[id].sequence, w.live.sequence + 1);
    }
    if HasResult(LogOf(w), id) {
      ResultMeansRan(RunIdOf(w), LogOf(w), id);
    }
  }

  lemma ResumePendingReads(w: World, cmd: Command)
    requires Intact(w) && cmd.ResumePending? && Bound(RunIdOf(w), LogOf(w)) && BindsGenuinely(w, cmd)
    ensures Reads(RunIdOf(w), LogOf(w), LogOf(Next(w, cmd)), PointsFrom(w, cmd))
  {
    hide Intact, Bound, Genuine, ResumeCall, Fold, MayRun, PointsIn, HasResult, Actionable;
    QuietSelf(LogOf(w));
    QuietReads(RunIdOf(w), LogOf(w), LogOf(w));
    if w.Open? && cmd.callId in w.offers && Actionable(w.offers[cmd.callId].approval, cmd.now) {
      var o := w.offers[cmd.callId];
      if Resumes(w.live, o) {
        WaitingHasNoResult(w, cmd.callId);
        ResumeBinds(w.config, w.live, o, Response(o), cmd.answers);
        NothingIfRefused(w.config, Some(Response(o)), cmd.answers);
      } else {
        NotResumed(w.config, w.live, o, Response(o), cmd.answers);
      }
    }
  }

  lemma NotResumed(c: Config, l: Live, o: Offer, response: string, a: Answers)
    requires !Resumes(l, o)
    ensures ResumeCall(c, l, o.call, o.arguments, response, a).live == l
  {
  }

  lemma WaitingHasNoResult(w: World, id: string)
    requires Intact(w) && w.Open? && id in w.offers && Resumes(w.live, w.offers[id]) && Bound(RunIdOf(w), LogOf(w))
    ensures w.offers[id].call.callId == id && !HasResult(LogOf(w), id)
  {
    hide Fold, Bound, HasResult, Granted, Agreed;
    assert OfferFits(w.live, id, w.offers[id]);
    if HasResult(LogOf(w), id) {
      ResultMeansRan(RunIdOf(w), LogOf(w), id);
    }
  }

  lemma QuietCommand(w: World, cmd: Command)
    requires cmd.Begin? || cmd.SubmitAnswer? || cmd.TimeUp? || cmd.Exit? || cmd.DecideApproval? || cmd.Resume?
             || cmd.Cancel?
    ensures GrewQuietly(LogOf(w), LogOf(Next(w, cmd)))
  {
    hide GrewQuietly, Start, AnswerFinally, TimeOut, Leave, Ruling, Misruled, Replayed, Resumable, OffersOf, Cancelling;
    hide ValidSession, LastSequence;
    QuietSelf(LogOf(w));
    match cmd
    case Begin(config, session) => BeginIsQuiet(w, config, session);
    case SubmitAnswer(verified) =>
      if w.Open? && AnswerFinally(w.config, w.live, verified).Some? {
        AnswerIsQuiet(w.config, w.live, verified);
      }
    case TimeUp =>
      if w.Open? {
        TimeOutIsQuiet(w.config, w.live);
      }
    case Exit(raised, timedOut) =>
      if w.Open? {
        LeaveIsQuiet(w.config, w.live, raised, timedOut);
      }
    case DecideApproval(_, _, _, _, _, _) => RulingIsQuiet(RunIdOf(w), LogOf(w), cmd);
    case Resume(config, callId, now) => QuietOnce(LogOf(w), Noted(RunIdOf(w), "run_resumed"));
    case Cancel(_, _, _, _, _) => CancellingIsQuiet(RunIdOf(w), LogOf(w), cmd);
  }

  lemma BeginIsQuiet(w: World, config: Config, session: AgentSession)
    ensures GrewQuietly(LogOf(w), LogOf(Next(w, Begin(config, session))))
  {
    QuietSelf(LogOf(w));
    var preamble := [Noted(RunIdOf(w), "policy_snapshot"), Noted(RunIdOf(w), "run_started")];
    assert preamble[0..] == preamble;
    assert GrewQuietly([], preamble);
    hide GrewQuietly, Start, ValidSession;
    if session.status == Created {
      StartIsQuiet(config, Fresh(session, preamble));
      QuietTwice([], preamble, Start(config, Fresh(session, preamble)).log);
    }
  }

  /** Whatever a command does, the log stays such that every restore point in it is bound; and
      unless it crashes, it adds exactly its own. */
  lemma {:induction false} NextBinds(w: World, cmd: Command)
    requires Intact(w) && Bound(RunIdOf(w), LogOf(w)) && BindsGenuinely(w, cmd)
    ensures Bound(RunIdOf(w), LogOf(Next(w, cmd)))
    ensures Crashes(cmd) || PointsIn(LogOf(Next(w, cmd))) == PointsIn(LogOf(w)) + PointsFrom(w, cmd)
    decreases cmd
  {
    hide Next, Bound, PointsIn, Intact, Interleaves, Genuine, Permits, CutsThrough, Inserted, Ruling;
    match cmd
    case Call(_, _, _) =>
      CallReads(w, cmd);
      hide PointsFrom;
    case ResumePending(_, _, _) =>
      ResumePendingReads(w, cmd);
      hide PointsFrom;
    case Crash(during, kept, runsKept) =>
      NextBinds(w, during);
      CrashLeaves(w, during, kept, runsKept);
      if CutsThrough(w, Next(w, during), kept, runsKept) {
        KeptIsWithin(w, Next(w, during), kept, runsKept);
        BoundPrefix(RunIdOf(w), LogOf(Next(w, during)), kept);
      }
    case Meanwhile(during, at, decision) =>
      NextBinds(w, during);
      MeanwhileLeaves(w, during, at, decision);
      var after := Next(w, during);
      if Interleaves(w, after, at, decision) {
        FallsInside(w, after, at, decision);
        MeanwhileReads(RunIdOf(w), LogOf(after), at, decision);
        InterleavedLog(after, at, Ruling(RunIdOf(w), LogOf(after)[..at], decision));
      }
    case _ =>
      QuietCommand(w, cmd);
      QuietReads(RunIdOf(w), LogOf(w), LogOf(Next(w, cmd)));
  }

  lemma KeptIsWithin(w: World, after: World, kept: nat, runsKept: nat)
    requires CutsThrough(w, after, kept, runsKept)
    ensures kept <= |LogOf(after)|
  {
  }

  lemma FallsInside(w: World, after: World, at: nat, decision: Command)
    requires Interleaves(w, after, at, decision)
    ensures at <= |LogOf(after)| && decision.DecideApproval?
  {
  }

  lemma InterleavedLog(w: World, at: nat, events: seq<Event>)
    requires at <= |LogOf(w)|
    ensures LogOf(Interleaved(w, at, events)) == Inserted(LogOf(w), at, events)
  {
  }

  lemma MeanwhileReads(runId: string, log: seq<Event>, at: nat, decision: Command)
    requires decision.DecideApproval? && at <= |log|
    ensures ReadsAlike(runId, log, Inserted(log, at, Ruling(runId, log[..at], decision)))
  {
    var events := Ruling(runId, log[..at], decision);
    RulingIsQuiet(runId, log[..at], decision);
    hide ReadsAlike, Ruling, AllNeutral;
    InsertedReadsAlike(runId, log[..at], events, log[at..]);
    assert log == log[..at] + log[at..];
  }

  // ----- Every history -----

  ghost predicate AllGenuine(runId: string, history: seq<Command>) {
    forall i | 0 <= i < |history| :: BindsGenuinely(After(Unborn(runId), history[..i]), history[i])
  }

  /** The restore points of a history's commands, in order. */
  ghost function PointsOfHistory(runId: string, history: seq<Command>): seq<Checkpoint> {
    if history == [] then []
    else
      var n := |history| - 1;
      PointsOfHistory(runId, history[..n]) + PointsFrom(After(Unborn(runId), history[..n]), history[n])
  }

  lemma {:induction false} HistoryBinds(runId: string, history: seq<Command>)
    requires AllGenuine(runId, history)
    ensures Bound(runId, LogOf(After(Unborn(runId), history)))
    ensures (forall i | 0 <= i < |history| :: !Crashes(history[i])) ==>
              PointsIn(LogOf(After(Unborn(runId), history))) == PointsOfHistory(runId, history)
  {
    if history != [] {
      var n := |history| - 1;
      hide Next, Bound, PointsIn, Intact, AllGenuine, BindsGenuinely, PointsFrom, Crashes;
      GenuineBefore(runId, history);
      HistoryBinds(runId, history[..n]);
      HistoryIntact(runId, history[..n]);
      NextBinds(After(Unborn(runId), history[..n]), history[n]);
    }
  }

  lemma GenuineBefore(runId: string, history: seq<Command>)
    requires AllGenuine(runId, history) && history != []
    ensures var n := |history| - 1;
            AllGenuine(runId, history[..n]) && BindsGenuinely(After(Unborn(runId), history[..n]), history[n])
  {
    hide After, BindsGenuinely;
    var shorter := history[..|history| - 1];
    forall i | 0 <= i < |shorter|
      ensures BindsGenuinely(After(Unborn(runId), shorter[..i]), shorter[i])
    {
      assert shorter[..i] == history[..i];
    }
  }

  /** The restore points of every history can be read back from its log, crashes and decisions
      in between included; without crashes they are those its commands left. */
  lemma HistoryIsReadable(runId: string, history: seq<Command>)
    requires AllGenuine(runId, history)
    ensures CheckpointsIn(runId, LogOf(After(Unborn(runId), history))).Some?
    ensures (forall i | 0 <= i < |history| :: !Crashes(history[i])) ==>
              CheckpointsIn(runId, LogOf(After(Unborn(runId), history))) == Some(PointsOfHistory(runId, history))
  {
    HistoryBinds(runId, history);
    hide Bound, PointsIn, After, AllGenuine, AllAcceptable, PointsOfHistory;
    BoundIsAcceptable(runId, LogOf(After(Unborn(runId), history)));
  }

  /** End to end: whoever worked on the run, if what they bound are the restore points of its
      writes, restoring what the log gives undoes them. */
  lemma RestoreUndoesTheHistory(runId: string, history: seq<Command>, d: Recovery.Disk, steps: seq<Recovery.Step>,
                                o: Recovery.Options)
    requires AllGenuine(runId, history) && forall i | 0 <= i < |history| :: !Crashes(history[i])
    requires PointsOfHistory(runId, history) == Recovery.PointsOf(runId, d, steps, o.inside)
    requires RecoveryProofs.DistinctCalls(steps) && RecoveryProofs.Untampered(steps) && RecoveryProofs.Covered(steps, o)
    requires !o.dryRun && !o.force
    ensures var read := CheckpointsIn(runId, LogOf(After(Unborn(runId), history)));
            read.Some? && Recovery.RestoreAll(Recovery.DiskAfter(d, steps), read.value, o).disk.files == d.files
  {
    HistoryIsReadable(runId, history);
    RecoveryProofs.RestoreUndoesTheRun(runId, d, steps, o);
    hide CheckpointsIn, After, AllGenuine, PointsOfHistory;
  }
}
