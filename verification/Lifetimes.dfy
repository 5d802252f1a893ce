/** A run over its whole life: sessions, approval decisions, resumptions, cancellations and
    crashes, each by its own process, with only the evidence log in between. */
module Lifetimes {
  import opened Texts
  import opened Lifecycle
  import opened Entities
  import opened Replay
  import opened Pipeline
  import opened Agreement
  import opened Interleavings

  /** A waiting call a resumed session may take up, as replay handed it over. */
  datatype Offer = Offer(call: SessionToolCall, approval: ApprovalRequest, arguments: Arguments)

  /** The run with no session object, or with one; a resumed session holds the run lock. */
  datatype World =
    | Closed(runId: string, log: seq<Event>, runs: seq<nat>)
    | Open(config: Config, live: Live, offers: map<string, Offer>, locked: bool)

  function RunIdOf(w: World): string { if w.Closed? then w.runId else w.live.session.runId }

  function LogOf(w: World): seq<Event> { if w.Closed? then w.log else w.live.log }

  function RunsOf(w: World): seq<nat> { if w.Closed? then w.runs else w.live.runs }

  datatype Command =
    | Begin(config: Config, session: AgentSession)
    | Call(toolName: string, arguments: Arguments, answers: Answers)
    | SubmitAnswer(verified: bool)
    | ResumePending(callId: string, now: int, answers: Answers)
    | TimeUp
    | Exit(raised: bool, timedOut: bool)
    | DecideApproval(approvalId: string, approves: bool, approver: string, reason: string,
                     checkedAt: int, decidedAt: int)
    | Resume(config: Config, callId: string, now: int)
    | Cancel(actor: string, approvalOrder: seq<string>, callOrder: seq<string>, checks: nat -> int, clock: nat -> int)
    // the process dies during a command, with that much of it on disk
    | Crash(during: Command, kept: nat, runsKept: nat)
    // somebody decides while a session that holds no lock is at work: what the session writes
    // from this position of the log on comes after the decision
    | Meanwhile(during: Command, at: nat, decision: Command)

  // ----- Decisions -----

  /** `_decide_approval_locked`: the events it appends, none where it raises. The check for
      expiry and the decision read the clock separately. */
  function Ruling(runId: string, log: seq<Event>, c: Command): seq<Event>
    requires c.DecideApproval?
  {
    var r := Replayed(runId, log);
    if r.None? || c.approvalId !in r.value.approvals then []
    else
      var a := r.value.approvals[c.approvalId];
      var late := Expired(a, At(c.checkedAt)) == Some(true);
      var decided :=
        if late then Expire(a, c.approver, At(c.decidedAt))
        else Decide(a, if c.approves then Approval(c.approver, c.reason, At(c.decidedAt))
                       else Denial(c.approver, c.reason, At(c.decidedAt)));
      if decided.None? then []
      else if late then [Noted(runId, "approval_expired"), ApprovalDecided(decided.value)]
      else [ApprovalDecided(decided.value)]
  }

  /** A denial in time that gives the reason reserved for expiries: replay takes it for one. */
  predicate Misnamed(e: Event) {
    && e.ApprovalDecided? && e.approval.verdict.Denial?
    && e.approval.verdict.reason == EXPIRY_REASON
    && Expired(e.approval, e.approval.verdict.at) == Some(false)
  }

  predicate Misruled(log: seq<Event>) { log != [] && Misnamed(log[|log| - 1]) }

  // ----- Cancelling -----

  datatype Progress = Progress(log: seq<Event>, done: bool)

  /** The approvals loop of `_cancel_locked`; it stops where deciding raises. */
  function DenyPending(runId: string, log: seq<Event>, approvals: map<string, ApprovalRequest>, order: seq<string>,
                       c: Command)
    : Progress
    requires c.Cancel? && forall i | 0 <= i < |order| :: order[i] in approvals
    decreases |order|
  {
    if order == [] then Progress(log, true)
    else
      var a := approvals[order[0]];
      if !a.verdict.Pending? then DenyPending(runId, log, approvals, order[1..], c)
      else
        var late := Expired(a, At(c.checks(|log|))) == Some(true);
        var at := At(c.clock(|log|));
        var decided := if late then Expire(a, c.actor, at) else Decide(a, Denial(c.actor, "session_cancelled", at));
        var noted := if late then log + [Noted(runId, "approval_expired")] else log;
        if decided.None? then Progress(log, false)
        else DenyPending(runId, noted + [ApprovalDecided(decided.value)], approvals, order[1..], c)
  }

  /** The calls loop of `_cancel_locked`. */
  function RefuseWaiting(log: seq<Event>, calls: map<string, SessionToolCall>, order: seq<string>, c: Command)
    : seq<Event>
    requires c.Cancel? && forall i | 0 <= i < |order| :: order[i] in calls
    decreases |order|
  {
    if order == [] then log
    else
      var call := calls[order[0]];
      var refused := call.(status := PolicyDenied, updatedAt := At(c.clock(|log|)));
      var next := if call.status == AwaitingApproval then log + [ToolCallStatusChanged(refused)] else log;
      RefuseWaiting(next, calls, order[1..], c)
  }

  /** An order in which a loop may go through the keys of a dictionary. */
  predicate Orders(order: seq<string>, keys: set<string>) {
    && (forall i | 0 <= i < |order| :: order[i] in keys)
    && (forall k | k in keys :: k in order)
    && Distinct(order)
  }

  function Cancelling(runId: string, log: seq<Event>, c: Command): Progress
    requires c.Cancel?
  {
    var r := Replayed(runId, log);
    if r.None? || SessionOver(r.value.session.value.status)
       || !Orders(c.approvalOrder, r.value.approvals.Keys) || !Orders(c.callOrder, r.value.calls.Keys)
    then Progress(log, false)
    else
      var actor := if c.actor == "" then r.value.session.value.actorId else c.actor;
      var denied := DenyPending(runId, log, r.value.approvals, c.approvalOrder, c.(actor := actor));
      if !denied.done then denied
      else
        var refused := RefuseWaiting(denied.log, r.value.calls, c.callOrder, c);
        var s := r.value.session.value.(status := Cancelled, updatedAt := At(c.clock(|refused|)));
        Progress(refused + [SessionStatusChanged(s), Noted(runId, "run_completed")], true)
  }

  // ----- Resuming -----

  lemma AMaximum(calls: map<string, SessionToolCall>, ids: set<string>)
    requires ids != {} && ids <= calls.Keys
    ensures exists id :: id in ids && forall k | k in ids :: calls[k].sequence <= calls[id].sequence
    decreases |ids|
  {
    var any :| any in ids;
    var rest := ids - {any};
    var best := any;
    if rest != {} {
      AMaximum(calls, rest);
      var top :| top in rest && forall k | k in rest :: calls[k].sequence <= calls[top].sequence;
      best := if calls[any].sequence <= calls[top].sequence then top else any;
    }
    assert forall k | k in ids :: k == any || k in rest;
    assert best in ids && forall k | k in ids :: calls[k].sequence <= calls[best].sequence;
  }

  /** `max(call.sequence ..., default=0)`. */
  ghost function LastSequence(calls: map<string, SessionToolCall>): (n: int)
    ensures forall k | k in calls :: calls[k].sequence <= n
    ensures calls == map[] ==> n == 0
    ensures calls != map[] ==> exists k :: k in calls && calls[k].sequence == n
  {
    if calls == map[] then 0
    else
      AMaximum(calls, calls.Keys);
      var id :| id in calls && forall k | k in calls :: calls[k].sequence <= calls[id].sequence;
      calls[id].sequence
  }

  ghost function ApprovalOf(approvals: map<string, ApprovalRequest>, callId: string): (a: ApprovalRequest)
    requires Asked(approvals, callId)
    ensures a.callId == callId && exists k :: k in approvals && approvals[k] == a
  {
    var k :| k in approvals && approvals[k].callId == callId;
    approvals[k]
  }

  ghost function OffersOf(st: RunState): map<string, Offer>
    requires forall id | id in Waiting(st.calls) :: Asked(st.approvals, id)
    requires st.calls.Keys <= st.arguments.Keys
  {
    map id | id in Waiting(st.calls) :: Offer(st.calls[id], ApprovalOf(st.approvals, id), st.arguments[id])
  }

  predicate Actionable(a: ApprovalRequest, now: int) {
    Expired(a, At(now)) == Some(false) && !a.verdict.Pending?
  }

  /** The checks of `_resume_locked` on the replayed state, for the call to take up. */
  ghost predicate Resumable(st: RunState, callId: string, now: int) {
    && st.session.Some? && st.session.value.status == WaitingApproval
    && callId in Waiting(st.calls)
    && (forall id | id in Waiting(st.calls) :: Asked(st.approvals, id))
    && Actionable(ApprovalOf(st.approvals, callId), now)
  }

  ghost function Restored(runId: string, log: seq<Event>, runs: seq<nat>): Live
    requires Replayed(runId, log).Some?
  {
    var st := Replayed(runId, log).value;
    var last := LastSequence(st.calls);
    Live(st.session.value, if last < 0 then 0 else last, Waiting(st.calls), st.facts, false,
         log + [Noted(runId, "run_resumed")], runs)
  }

  // ----- One command -----

  ghost function Next(w: World, cmd: Command): World
    decreases cmd
  {
    match cmd
    case Begin(config, session) =>
      if w.Closed? && w.log == [] && w.runs == [] && session.runId == w.runId
         && ValidSession(session) && session.status == Created then
        var preamble := [Noted(w.runId, "policy_snapshot"), Noted(w.runId, "run_started")];
        Open(config, Start(config, Fresh(session, preamble)), map[], false)
      else w
    case Call(toolName, arguments, a) =>
      // approval ids are drawn at random and never repeat
      if w.Closed? || a.approvalId in Grants(w.live) then w
      else w.(live := Execute(w.config, w.live, toolName, arguments, a).live)
    case SubmitAnswer(verified) =>
      if w.Closed? || AnswerFinally(w.config, w.live, verified).None? then w
      else w.(live := AnswerFinally(w.config, w.live, verified).value)
    case ResumePending(callId, now, a) =>
      if w.Closed? || callId !in w.offers || !Actionable(w.offers[callId].approval, now) then w
      else
        var offer := w.offers[callId];
        var response := if offer.approval.verdict.Approval? then "approve" else "deny";
        var t := ResumeCall(w.config, w.live, offer.call, offer.arguments, response, a);
        Open(w.config, t.live, if t.outcome.Finished? then w.offers - {callId} else w.offers, w.locked)
    case TimeUp =>
      if w.Closed? then w else w.(live := TimeOut(w.config, w.live))
    case Exit(raised, timedOut) =>
      if w.Closed? then w
      else
        var l := Leave(w.config, w.live, raised, timedOut);
        Closed(RunIdOf(w), l.log, l.runs)
    case DecideApproval(_, _, _, _, _, _) =>
      var events := Ruling(RunIdOf(w), LogOf(w), cmd);
      if w.Closed? then w.(log := w.log + events)
      else if w.locked || Misruled(events) then w
      else w.(live := w.live.(log := w.live.log + events))
    case Resume(config, callId, now) =>
      if w.Open? || Replayed(w.runId, w.log).None? || !Resumable(Replayed(w.runId, w.log).value, callId, now) then w
      else Open(config, Restored(w.runId, w.log, w.runs), OffersOf(Replayed(w.runId, w.log).value), true)
    case Cancel(_, _, _, _, _) =>
      if w.Open? then w else w.(log := Cancelling(w.runId, w.log, cmd).log)
    case Crash(during, kept, runsKept) =>
      var after := Next(w, during);
      if CutsThrough(w, after, kept, runsKept)
      then Closed(RunIdOf(w), LogOf(after)[..kept], RunsOf(after)[..runsKept]) else w
    case Meanwhile(during, at, decision) =>
      var after := Next(w, during);
      if Interleaves(w, after, at, decision)
      then Interleaved(after, at, Ruling(RunIdOf(w), LogOf(after)[..at], decision)) else after
  }

  /** `__exit__`. */
  function Leave(c: Config, l: Live, raised: bool, timedOut: bool): Live {
    var left :=
      if raised then (if l.session.status == WaitingApproval then l else FailSession(c, l))
      else if timedOut then TimeOut(c, l)
      else Close(c, l);
    if SessionOver(left.session.status) then Note(left, "run_completed") else left
  }

  /** The position lies within what the command wrote, and no other decision follows it. */
  predicate FallsWithin(before: World, after: World, at: nat) {
    |LogOf(before)| <= at <= |LogOf(after)| && NoDecision(LogOf(after)[at..])
  }

  predicate Interleaves(before: World, after: World, at: nat, decision: Command) {
    && before.Open? && !before.locked && decision.DecideApproval? && FallsWithin(before, after, at)
    && !Misruled(Ruling(RunIdOf(before), LogOf(after)[..at], decision))
  }

  /** The events of a decision at a position, and everything from there on moved along. */
  function Interleaved(w: World, at: nat, events: seq<Event>): World
    requires at <= |LogOf(w)|
  {
    var log, runs := Inserted(LogOf(w), at, events), Shifted(RunsOf(w), at, |events|);
    match w
    case Closed(runId, _, _) => Closed(runId, log, runs)
    case Open(_, live, _, _) => w.(live := live.(log := log, runs := runs))
  }

  /** The process dies somewhere in the command. */
  predicate Crashes(cmd: Command) {
    match cmd
    case Crash(_, _, _) => true
    case Meanwhile(during, _, _) => Crashes(during)
    case _ => false
  }

  /** What was on disk stays; a run of the executor is lost only if the crash came between
      its `executing` event and it. */
  predicate CutsThrough(before: World, after: World, kept: nat, runsKept: nat) {
    var log, runs := LogOf(after), RunsOf(after);
    && |LogOf(before)| <= kept <= |log| && |RunsOf(before)| <= runsKept <= |runs|
    && (forall j | 0 <= j < runsKept :: runs[j] < kept)
    && (forall j | runsKept <= j < |runs| :: kept <= runs[j] + 1)
  }

  ghost function After(w: World, history: seq<Command>): World {
    if history == [] then w
    else Next(After(w, history[..|history| - 1]), history[|history| - 1])
  }

  /** A run directory nothing has been written to yet. */
  function Unborn(runId: string): World { Closed(runId, [], []) }
}
