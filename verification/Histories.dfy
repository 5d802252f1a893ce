/** The promises of the runtime, over every history of a run. */
module Histories {
  import opened Texts
  import opened Lifecycle
  import opened Entities
  import opened Replay
  import opened ReplaySoundness
  import opened Pipeline
  import opened Agreement
  import opened SessionAgreement
  import opened CrashConsistency
  import opened Interleavings
  import opened Lifetimes
  import opened LifetimeProofs

  lemma {:induction false} HistoryIntact(runId: string, history: seq<Command>)
    ensures Intact(After(Unborn(runId), history)) && RunIdOf(After(Unborn(runId), history)) == runId
  {
    if history == [] {
    } else {
      hide Intact;
      HistoryIntact(runId, history[..|history| - 1]);
      NextIntact(After(Unborn(runId), history[..|history| - 1]), history[|history| - 1]);
    }
  }

  /** No command rewrites evidence: an earlier log is a prefix of every later one. */
  lemma {:induction false} LogOnlyGrows(runId: string, history: seq<Command>, n: nat)
    requires n <= |history|
    ensures LogOf(After(Unborn(runId), history[..n])) <= LogOf(After(Unborn(runId), history))
    decreases |history|
  {
    hide Intact;
    if n == |history| {
      assert history[..n] == history;
    } else {
      var shorter := history[..|history| - 1];
      assert shorter[..n] == history[..n];
      LogOnlyGrows(runId, shorter, n);
      HistoryIntact(runId, shorter);
      NextIntact(After(Unborn(runId), shorter), history[|history| - 1]);
    }
  }

  /** The part of the log that was written before any misnamed denial. */
  function Lawful(w: World): seq<Event> {
    if Misruled(LogOf(w)) && Fold(RunIdOf(w), LogOf(w)).None? then LogOf(w)[..|LogOf(w)| - 1] else LogOf(w)
  }

  lemma LawfulIsSound(w: World)
    requires Intact(w)
    ensures Sound(RunIdOf(w), Lawful(w), RunsOf(w)) && Lawful(w) <= LogOf(w)
    ensures forall j | 0 <= j < |RunsOf(w)| :: RunsOf(w)[j] < |Lawful(w)|
  {
    if w.Open? {
      AgreedIsSound(w.live);
    }
    hide Agreed, OffersFit;
    assert Sound(RunIdOf(w), Lawful(w), RunsOf(w));
    RunsWithin(RunIdOf(w), Lawful(w), RunsOf(w));
  }

  /** The call the j-th run of the executor was for. */
  function RunFor(w: World, j: nat): string
    requires j < |RunsOf(w)| && RunsOf(w)[j] < |LogOf(w)| && LogOf(w)[RunsOf(w)[j]].ToolCallStatusChanged?
  {
    LogOf(w)[RunsOf(w)[j]].call.callId
  }

  /** Whatever processes decide, resume, cancel or crash in whatever order, the executor runs
      at most once for a call id over the whole life of the run; and each run comes after an
      `executing` event, with every approval that was asked for the call granted by then. */
  lemma ExecutesAtMostOnce(runId: string, history: seq<Command>, i: nat, j: nat)
    requires i < j < |RunsOf(After(Unborn(runId), history))|
    ensures var w := After(Unborn(runId), history);
            && RunsOf(w)[i] < RunsOf(w)[j] < |LogOf(w)|
            && LogOf(w)[RunsOf(w)[i]].ToolCallStatusChanged? && LogOf(w)[RunsOf(w)[j]].ToolCallStatusChanged?
            && RunFor(w, i) != RunFor(w, j)
  {
    var w := After(Unborn(runId), history);
    HistoryIntact(runId, history);
    hide Intact, After, Fold;
    LawfulIsSound(w);
    assert Licensed(runId, Lawful(w), RunsOf(w)[i]) && Licensed(runId, Lawful(w), RunsOf(w)[j]);
    ExecutingOnce(runId, Lawful(w), RunsOf(w)[i], RunsOf(w)[j]);
  }

  /** The execution gate: when the executor runs, its call is `executing`, and every approval
      ever requested for it has been granted, before its expiry. */
  lemma RunsOnlyWhatWasGranted(runId: string, history: seq<Command>, j: nat)
    requires j < |RunsOf(After(Unborn(runId), history))|
    ensures var w := After(Unborn(runId), history);
            var at := RunsOf(w)[j];
            && at < |LogOf(w)| && LogOf(w)[at].ToolCallStatusChanged?
            && Fold(runId, LogOf(w)[..at]).Some? && Fold(runId, LogOf(w)[..at + 1]).Some?
            && var before, during := Fold(runId, LogOf(w)[..at]).value, Fold(runId, LogOf(w)[..at + 1]).value;
               && RunFor(w, j) in during.calls && during.calls[RunFor(w, j)].status == Executing
               && forall k | k in before.approvals && before.approvals[k].callId == RunFor(w, j) ::
                    && before.approvals[k].verdict.Approval?
                    && SoundApproval(before, k)
  {
    var w := After(Unborn(runId), history);
    HistoryIntact(runId, history);
    hide Intact, After;
    LawfulIsSound(w);
    hide Step, Ided, Paired, Known;
    var at := RunsOf(w)[j];
    assert Licensed(runId, Lawful(w), at);
    assert Lawful(w)[..at] == LogOf(w)[..at] && Lawful(w)[..at + 1] == LogOf(w)[..at + 1];
    StatusAt(runId, Lawful(w), at);
    ApprovalsAreSound(runId, Lawful(w)[..at]);
  }

  /** No call id is ever issued twice, by one session object or by two. */
  lemma IdsAreIssuedOnce(runId: string, history: seq<Command>, i: nat, j: nat)
    requires i < j < |LogOf(After(Unborn(runId), history))|
    requires LogOf(After(Unborn(runId), history))[i].ToolCallRequested?
    requires LogOf(After(Unborn(runId), history))[j].ToolCallRequested?
    ensures LogOf(After(Unborn(runId), history))[i].call.callId != LogOf(After(Unborn(runId), history))[j].call.callId
  {
    var w := After(Unborn(runId), history);
    HistoryIntact(runId, history);
    hide Intact, After;
    LawfulIsSound(w);
    RequestedOnce(runId, Lawful(w), i, j);
  }

  lemma RequestedOnce(runId: string, log: seq<Event>, i: nat, j: nat)
    requires Fold(runId, log).Some? && i < j < |log|
    requires log[i].ToolCallRequested? && log[j].ToolCallRequested?
    ensures log[i].call.callId != log[j].call.callId
  {
    hide Fold, Step, Later;
    FoldAt(runId, log, i);
    FoldAt(runId, log, j);
    assert log[..j][..i + 1] == log[..i + 1];
    RequestKnown(runId, Fold(runId, log[..i]).value, log[i]);
    RequestKnown(runId, Fold(runId, log[..j]).value, log[j]);
    CallMovesOn(runId, log[..j], i + 1, log[i].call.callId);
  }

  lemma RequestKnown(runId: string, st: RunState, e: Event)
    requires Step(runId, st, e).Some? && e.ToolCallRequested?
    ensures e.call.callId !in st.calls && e.call.callId in Step(runId, st, e).value.calls
  {
  }

  /** At any point of any history an open session is the state replay rebuilds: the session,
      the facts and the waiting calls; and replay accepts its log iff it can read the facts. */
  lemma LiveIsReplayed(runId: string, history: seq<Command>)
    requires After(Unborn(runId), history).Open?
    ensures var l := After(Unborn(runId), history).live;
            var r := Replayed(runId, l.log);
            && (r.Some? <==> Readable(l.facts))
            && (r.Some? ==> r.value.session == Some(l.session) && r.value.facts == l.facts
                            && Waiting(r.value.calls) == l.pending)
  {
    HistoryIntact(runId, history);
    ReplayIsLive(After(Unborn(runId), history).live);
  }

  /** The log between processes replays exactly if its session was created, it does not stop
      between a request and its intent, its facts can be read, and nobody denied an approval
      in time for the reason reserved for expiries. */
  lemma StoredLogReplays(runId: string, history: seq<Command>)
    requires After(Unborn(runId), history).Closed?
    ensures var log := LogOf(After(Unborn(runId), history));
            Replayed(runId, log).Some? <==>
              Creates(log) && !EndsInRequest(log) && Readable(FactsIn(log)) && !Misruled(log)
  {
    var w := After(Unborn(runId), history);
    HistoryIntact(runId, history);
    hide After;
    if Fold(runId, w.log).Some? {
      MisruledNeverFolds(runId, w.log);
      ReplayableIff(runId, w.log, w.runs);
    }
  }

  lemma MisruledNeverFolds(runId: string, log: seq<Event>)
    ensures Misruled(log) ==> Fold(runId, log).None?
  {
    if !Misruled(log) {
      return;
    }
    var e := log[|log| - 1];
    var before := Fold(runId, log[..|log| - 1]);
    if before.Some? && e.approval.approvalId in before.value.approvals {
      var a := before.value.approvals[e.approval.approvalId];
      if SameApproval(e.approval, a) {
        assert Expired(a, e.approval.verdict.at) == Expired(e.approval, e.approval.verdict.at);
      }
    }
  }

  lemma LandingAdds(c: Config, l: Live, toolName: string, arguments: Arguments, a: Answers)
    requires Accepting(l) && !Blank(toolName)
    ensures Launch(c, l, toolName, arguments, a).flight.live.log <= Execute(c, l, toolName, arguments, a).live.log
    ensures Credited(Launch(c, l, toolName, arguments, a)).live.log ==
            Launch(c, l, toolName, arguments, a).flight.live.log
  {
    hide Launch;
  }

  /** Every call there is leaves a point at which a crash makes the log unreadable for good:
      the request is on disk and its arguments are not. */
  lemma EveryCallCanTearTheLog(c: Config, l: Live, toolName: string, arguments: Arguments, a: Answers)
    requires Agreed(l) && Accepting(l) && !Blank(toolName) && a.approvalId !in Grants(l)
    ensures var log := Execute(c, l, toolName, arguments, a).live.log;
            && |l.log| < |log| && log[|l.log|].ToolCallRequested?
            && Replayed(l.session.runId, log[..|l.log| + 1]).None?
  {
    hide Agreed, Fold, Carries, InFlight, CallsKept, Quiet, Replayed;
    LandingAdds(c, l, toolName, arguments, a);
    hide Execute, Launch, Credited;
    OpenedInFlight(c, l, toolName, arguments);
    LaunchKeeps(c, l, toolName, arguments, a);
    FlightFacts(Opened(c, l, toolName, arguments), Credited(Launch(c, l, toolName, arguments, a)));
    ExecuteKeeps(c, l, toolName, arguments, a);
    CrashedLogReplays(Execute(c, l, toolName, arguments, a).live, |l.log| + 1);
  }

  /** A decision on a replayable log leaves it replayable, unless it is a denial in time that
      gives the reason reserved for expiries. */
  lemma DecisionReplays(runId: string, history: seq<Command>, c: Command)
    requires c.DecideApproval? && After(Unborn(runId), history).Closed?
    ensures var log := LogOf(After(Unborn(runId), history));
            var events := Ruling(runId, log, c);
            events != [] ==>
              && Replayed(runId, log).Some? && c.approvalId in Replayed(runId, log).value.approvals
              && (Replayed(runId, log + events).Some? <==>
                    || c.approves || c.reason != EXPIRY_REASON
                    || Expired(Replayed(runId, log).value.approvals[c.approvalId], At(c.checkedAt)) == Some(true))
  {
    var w := After(Unborn(runId), history);
    HistoryIntact(runId, history);
    hide After;
    var events := Ruling(runId, w.log, c);
    if events != [] {
      MisruledIff(runId, w.log, c);
      hide Intact, Sound, Fold, Ruling, Misruled;
      FoldedIsSound(w);
      RulingSound(runId, w.log, w.runs, c);
    }
  }

  lemma MisruledIff(runId: string, log: seq<Event>, c: Command)
    requires c.DecideApproval? && Ruling(runId, log, c) != []
    ensures Replayed(runId, log).Some? && Fold(runId, log) == Replayed(runId, log)
    ensures c.approvalId in Replayed(runId, log).value.approvals
    ensures var a := Replayed(runId, log).value.approvals[c.approvalId];
            Misruled(Ruling(runId, log, c)) <==>
              !c.approves && c.reason == EXPIRY_REASON && Expired(a, At(c.checkedAt)) != Some(true)
  {
    hide Fold;
  }

  // ----- From one process to the next -----

  /** A log that only decisions were appended to: what its calls and session are is kept. */
  lemma {:induction false} DecisionsKeepCalls(w: World, decisions: seq<Command>)
    requires w.Closed? && Sound(w.runId, w.log, w.runs)
    requires forall i | 0 <= i < |decisions| :: decisions[i].DecideApproval?
    ensures var v := After(w, decisions);
            && v.Closed? && v.runId == w.runId && v.runs == w.runs
            && (Fold(v.runId, v.log).Some? ==>
                  && Sound(v.runId, v.log, v.runs)
                  && SameButApprovals(Fold(v.runId, v.log).value, Fold(w.runId, w.log).value))
  {
    if decisions != [] {
      var n := |decisions| - 1;
      DecisionsKeepCalls(w, decisions[..n]);
      var u := After(w, decisions[..n]);
      hide After, Fold, Sound, Misruled, Next, Ruling;
      DecidingAppends(u, decisions[n]);
      assert u.log + [] == u.log;
      if Fold(u.runId, u.log).Some? {
        RulingSound(u.runId, u.log, u.runs, decisions[n]);
      } else {
        NoRuling(u.runId, u.log, decisions[n]);
      }
    }
  }

  lemma NoRuling(runId: string, log: seq<Event>, c: Command)
    requires Fold(runId, log).None? && c.DecideApproval?
    ensures Ruling(runId, log, c) == []
  {
    MisruledIsDead(runId, log);
  }

  /** A session object handed over: one process leaves its session, approvals are decided by
      others, and a further process resumes. What it holds is what the first one held. */
  lemma HandedOver(runId: string, history: seq<Command>, raised: bool, timedOut: bool,
                   decisions: seq<Command>, config: Config, callId: string, now: int)
    requires After(Unborn(runId), history).Open?
    requires forall i | 0 <= i < |decisions| :: decisions[i].DecideApproval?
    ensures var w := After(Unborn(runId), history);
            var left := Leave(w.config, w.live, raised, timedOut);
            var w' := Next(After(Next(w, Exit(raised, timedOut)), decisions), Resume(config, callId, now));
            w'.Open? ==>
              && w'.live.session == left.session && w'.live.facts == left.facts
              && w'.live.pending == left.pending && callId in left.pending
              && w'.live.sequence <= left.sequence
  {
    var w := After(Unborn(runId), history);
    HistoryIntact(runId, history);
    var left := Leave(w.config, w.live, raised, timedOut);
    LeaveKeeps(w.config, w.live, raised, timedOut);
    AgreedIsSound(left);
    hide Intact, Leave, Next, Fold, Sound, Agreed, Resumable;
    ExitAndResume(w, raised, timedOut, config, callId, now);
    var closed := Next(w, Exit(raised, timedOut));
    DecisionsKeepCalls(closed, decisions);
    var v := After(closed, decisions);
    hide After;
    ExitAndResume(v, raised, timedOut, config, callId, now);
    if Next(v, Resume(config, callId, now)).Open? {
      RestoredIsLeft(left, v, callId, now);
    }
  }

  lemma ExitAndResume(w: World, raised: bool, timedOut: bool, config: Config, callId: string, now: int)
    ensures w.Open? ==>
              var left := Leave(w.config, w.live, raised, timedOut);
              Next(w, Exit(raised, timedOut)) == Closed(RunIdOf(w), left.log, left.runs)
    ensures w.Closed? && Next(w, Resume(config, callId, now)).Open? ==>
              && Replayed(w.runId, w.log).Some? && Resumable(Replayed(w.runId, w.log).value, callId, now)
              && Next(w, Resume(config, callId, now)).live == Restored(w.runId, w.log, w.runs)
  {
    hide Leave, Fold, Resumable;
  }

  lemma RestoredIsLeft(left: Live, v: World, callId: string, now: int)
    requires Agreed(left) && v.Closed? && v.runId == left.session.runId
    requires Replayed(v.runId, v.log).Some? && Resumable(Replayed(v.runId, v.log).value, callId, now)
    requires SameButApprovals(Fold(v.runId, v.log).value, Rebuilt(left).value)
    ensures var l := Restored(v.runId, v.log, v.runs);
            && l.session == left.session && l.facts == left.facts && l.pending == left.pending
            && callId in left.pending && l.sequence <= left.sequence
  {
    hide Fold, Recorded, CallId;
    var calls := Rebuilt(left).value.calls;
    if calls != map[] {
      var k :| k in calls && calls[k].sequence == LastSequence(calls);
    }
  }

  // ----- Runs without a crash -----

  predicate QuietWorld(w: World) {
    Fold(RunIdOf(w), LogOf(w)).Some? ==> QuietState(Fold(RunIdOf(w), LogOf(w)).value)
  }

  lemma {:induction false} NextQuiet(w: World, cmd: Command)
    requires Intact(w) && QuietWorld(w) && !Crashes(cmd)
    ensures QuietWorld(Next(w, cmd))
    decreases cmd
  {
    hide Intact, QuietWorld, Next;
    match cmd
    case Begin(config, session) => BeginQuiet(w, config, session);
    case Call(_, _, _) => CallQuiet(w, cmd);
    case SubmitAnswer(verified) => AnswerQuiet(w, verified);
    case ResumePending(callId, now, a) => ResumePendingQuiet(w, callId, now, a);
    case TimeUp => LeaveQuiet(w, cmd);
    case Exit(_, _) => LeaveQuiet(w, cmd);
    case DecideApproval(_, _, _, _, _, _) => DecideQuiet(w, cmd);
    case Resume(config, callId, now) => ResumeQuiet(w, config, callId, now);
    case Cancel(_, _, _, _, _) => CancelQuiet(w, cmd);
    case Meanwhile(during, at, decision) =>
      NextQuiet(w, during);
      NextIntact(w, during);
      MeanwhileQuiet(w, during, at, decision);
  }

  /** A decision moves no call and no session. */
  lemma InterleavedQuiet(runId: string, log: seq<Event>, runs: seq<nat>, at: nat, c: Command)
    requires Stored(runId, log, runs) && at <= |log| && NoDecision(log[at..]) && c.DecideApproval?
    requires !Misruled(Ruling(runId, log[..at], c))
    requires Fold(runId, log).Some? ==> QuietState(Fold(runId, log).value)
    ensures var longer := Inserted(log, at, Ruling(runId, log[..at], c));
            Fold(runId, longer).Some? ==> QuietState(Fold(runId, longer).value)
  {
    var events := Ruling(runId, log[..at], c);
    NothingInserted(log, runs, at);
    if Sound(runId, log, runs) {
      if events != [] {
        var a := RulingWithin(runId, log, runs, at, c);
        SoundFolds(runId, log, runs);
        hide Sound, Ruling, Decides, Paired, Known, Inserted, Misruled, Fold;
        InsertedIsSound(runId, log, runs, at, events, c.approvalId, a);
      }
    } else {
      NothingToDecide(runId, log, at, c);
    }
  }

  lemma NothingToDecide(runId: string, log: seq<Event>, at: nat, c: Command)
    requires Fold(runId, log).None? && Misruled(log) && at <= |log| && NoDecision(log[at..]) && c.DecideApproval?
    ensures Ruling(runId, log[..at], c) == []
  {
    if at < |log| {
      LastIsInTail(log, at);
      assert false;
    }
    assert log[..at] == log;
  }

  lemma MeanwhileQuiet(w: World, during: Command, at: nat, decision: Command)
    requires QuietWorld(w) && Intact(Next(w, during)) && QuietWorld(Next(w, during))
    requires RunIdOf(Next(w, during)) == RunIdOf(w)
    ensures QuietWorld(Next(w, Meanwhile(during, at, decision)))
  {
    var after := Next(w, during);
    MeanwhileLeaves(w, during, at, decision);
    hide Next, Ruling, Misruled, Inserted, Shifted, Fold, QuietState;
    if Interleaves(w, after, at, decision) {
      IntactIsStored(after);
      InterleavedQuiet(RunIdOf(w), LogOf(after), RunsOf(after), at, decision);
    }
  }

  lemma IntactIsStored(w: World)
    requires Intact(w)
    ensures Stored(RunIdOf(w), LogOf(w), RunsOf(w))
  {
    if w.Open? {
      AgreedIsSound(w.live);
    }
    hide Agreed, OffersFit, Sound, Misruled;
  }

  lemma CallQuiet(w: World, c: Command)
    requires Intact(w) && QuietWorld(w) && c.Call?
    ensures QuietWorld(Next(w, c))
  {
    hide OffersFit, Agreed, Fold, Execute, CallsKept, QuietState, Grants;
    if w.Open? && c.answers.approvalId !in Grants(w.live) {
      AgreedKnows(w.live);
      ExecuteKeeps(w.config, w.live, c.toolName, c.arguments, c.answers);
    }
  }

  lemma AnswerQuiet(w: World, verified: bool)
    requires Intact(w) && QuietWorld(w)
    ensures QuietWorld(Next(w, SubmitAnswer(verified)))
  {
    hide OffersFit, Agreed, Fold, AnswerFinally, CallsKept, QuietState, Grants;
    if w.Open? && AnswerFinally(w.config, w.live, verified).Some? {
      AgreedKnows(w.live);
      AnswerKeeps(w.config, w.live, verified);
    }
  }

  lemma LeaveQuiet(w: World, c: Command)
    requires Intact(w) && QuietWorld(w) && (c.TimeUp? || c.Exit?)
    ensures QuietWorld(Next(w, c))
  {
    hide OffersFit, Agreed, Fold, TimeOut, Leave, CallsKept, QuietState, Grants;
    if w.Open? {
      AgreedKnows(w.live);
      if c.TimeUp? {
        TimeOutKeeps(w.config, w.live);
      } else {
        LeaveKeeps(w.config, w.live, c.raised, c.timedOut);
      }
    }
  }

  lemma ResumeQuiet(w: World, config: Config, callId: string, now: int)
    requires Intact(w) && QuietWorld(w)
    ensures QuietWorld(Next(w, Resume(config, callId, now)))
  {
    hide Agreed, Fold, OffersFit, OffersOf, Restored, Resumable, Sound, QuietState, LastSequence, Misruled;
    if w.Closed? && Replayed(w.runId, w.log).Some? && Resumable(Replayed(w.runId, w.log).value, callId, now) {
      RestoredAgrees(w.runId, w.log, w.runs, callId, now);
    }
  }

  lemma BeginQuiet(w: World, config: Config, session: AgentSession)
    requires Intact(w) && QuietWorld(w)
    ensures QuietWorld(Next(w, Begin(config, session)))
  {
    hide Start, Intact, ValidSession, QuietState, Fold;
    if w.Closed? && w.log == [] && w.runs == [] && session.runId == w.runId
       && ValidSession(session) && session.status == Created {
      BegunAgrees(config, session);
    }
  }

  lemma ResumePendingQuiet(w: World, callId: string, now: int, a: Answers)
    requires Intact(w) && QuietWorld(w)
    ensures QuietWorld(Next(w, ResumePending(callId, now, a)))
  {
    hide Agreed, Fold, RunTool, Land, OfferFits, Grants, Cleared, QuietState;
    if w.Open? && callId in w.offers && Actionable(w.offers[callId].approval, now) {
      var offer := w.offers[callId];
      if !SessionOver(w.live.session.status) {
        if offer.approval.verdict.Approval? {
          OfferClears(w.live, callId, offer);
        }
        OfferKnows(w.live, callId, offer);
        ResumeKeeps(w.config, w.live, offer.call, offer.arguments,
                    if offer.approval.verdict.Approval? then "approve" else "deny", a);
      }
    }
  }

  lemma RulingQuiet(runId: string, log: seq<Event>, runs: seq<nat>, c: Command)
    requires c.DecideApproval?
    requires Fold(runId, log).Some? ==> Sound(runId, log, runs) && QuietState(Fold(runId, log).value)
    ensures var longer := log + Ruling(runId, log, c);
            Fold(runId, longer).Some? ==> QuietState(Fold(runId, longer).value)
  {
    if Fold(runId, log).None? {
      MisruledIsDead(runId, log);
      assert log + [] == log;
    } else {
      hide Fold, Sound, Misnamed, Ruling, Misruled;
      RulingSound(runId, log, runs, c);
    }
  }

  lemma CancellingQuiet(runId: string, log: seq<Event>, runs: seq<nat>, c: Command)
    requires c.Cancel? && (Fold(runId, log).Some? ==> Sound(runId, log, runs) && QuietState(Fold(runId, log).value))
    ensures var longer := Cancelling(runId, log, c).log;
            Fold(runId, longer).Some? ==> QuietState(Fold(runId, longer).value)
  {
    if Fold(runId, log).None? {
      MisruledIsDead(runId, log);
    } else {
      hide Fold, Sound, Cancelling;
      CancelSound(runId, log, runs, c);
    }
  }

  lemma FoldedIsSound(w: World)
    requires Intact(w) && Fold(RunIdOf(w), LogOf(w)).Some?
    ensures Sound(RunIdOf(w), LogOf(w), RunsOf(w))
  {
    LawfulIsSound(w);
  }

  lemma DecideQuiet(w: World, c: Command)
    requires Intact(w) && QuietWorld(w) && c.DecideApproval?
    ensures QuietWorld(Next(w, c))
  {
    hide Intact, Fold, Sound, QuietState, Ruling, Misruled;
    if Fold(RunIdOf(w), LogOf(w)).Some? {
      FoldedIsSound(w);
    }
    RulingQuiet(RunIdOf(w), LogOf(w), RunsOf(w), c);
  }

  lemma CancelQuiet(w: World, c: Command)
    requires Intact(w) && QuietWorld(w) && c.Cancel?
    ensures QuietWorld(Next(w, c))
  {
    hide Intact, Fold, Sound, QuietState, Cancelling;
    if Fold(RunIdOf(w), LogOf(w)).Some? {
      FoldedIsSound(w);
    }
    CancellingQuiet(RunIdOf(w), LogOf(w), RunsOf(w), c);
  }

  /** In a history without crashes a completed session has finished every call in its log,
      and one that goes on has each call finished or waiting. */
  lemma {:induction false} CompletedMeansDone(runId: string, history: seq<Command>)
    requires forall i | 0 <= i < |history| :: !Crashes(history[i])
    ensures QuietWorld(After(Unborn(runId), history))
  {
    if history == [] {
    } else {
      var shorter := history[..|history| - 1];
      CompletedMeansDone(runId, shorter);
      HistoryIntact(runId, shorter);
      hide Intact, QuietWorld, Next;
      NextQuiet(After(Unborn(runId), shorter), history[|history| - 1]);
    }
  }
}
