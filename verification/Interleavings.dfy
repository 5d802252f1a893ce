/** A decision that falls between two events of a session at work: the log is the same run with
    one approval decided. */
module Interleavings {
  import opened Texts
  import opened Entities
  import opened Replay
  import opened Pipeline
  import opened Agreement
  import opened CrashConsistency

  /** The state with one approval decided. */
  function WithDecided(st: RunState, k: string, a: ApprovalRequest): RunState {
    st.(approvals := st.approvals[k := a])
  }

  function Inserted(log: seq<Event>, at: nat, events: seq<Event>): seq<Event>
    requires at <= |log|
  {
    log[..at] + events + log[at..]
  }

  /** Positions from `at` on move by k. */
  function Shifted(runs: seq<nat>, at: nat, k: nat): (shifted: seq<nat>)
    ensures |shifted| == |runs|
    ensures forall j | 0 <= j < |runs| :: shifted[j] == if runs[j] < at then runs[j] else runs[j] + k
  {
    seq(|runs|, j requires 0 <= j < |runs| => if runs[j] < at then runs[j] else runs[j] + k)
  }

  predicate NoDecision(events: seq<Event>) {
    forall i | 0 <= i < |events| :: !events[i].ApprovalDecided?
  }

  predicate Decisive(events: seq<Event>) {
    forall i | 0 <= i < |events| :: events[i].Noted? || events[i].ApprovalDecided?
  }

  /** What the events of a decision do to the state they are appended to. */
  predicate Decides(runId: string, log: seq<Event>, events: seq<Event>, k: string, a: ApprovalRequest) {
    && Fold(runId, log).Some? && !EndsInRequest(log)
    && Decisive(events)
    && var st := Fold(runId, log).value;
       && k in st.approvals && st.approvals[k].verdict.Pending? && SameApproval(a, st.approvals[k])
       && Fold(runId, log + events) == Some(WithDecided(st, k, a))
  }

  // ----- One event -----

  lemma AskedStays(st: RunState, k: string, a: ApprovalRequest, id: string)
    requires k in st.approvals && SameApproval(a, st.approvals[k])
    ensures Asked(WithDecided(st, k, a).approvals, id) <==> Asked(st.approvals, id)
  {
    var approvals := WithDecided(st, k, a).approvals;
    if m :| m in st.approvals && st.approvals[m].callId == id {
      assert approvals[m].callId == id;
    }
    if m :| m in approvals && approvals[m].callId == id {
      assert st.approvals[m].callId == id;
    }
  }

  /** No event but a decision reads or writes a verdict. */
  lemma StepCommutes(runId: string, st: RunState, k: string, a: ApprovalRequest, e: Event)
    requires k in st.approvals && SameApproval(a, st.approvals[k]) && !e.ApprovalDecided?
    requires Step(runId, st, e).Some?
    ensures Step(runId, WithDecided(st, k, a), e) == Some(WithDecided(Step(runId, st, e).value, k, a))
    ensures var st' := Step(runId, st, e).value;
            k in st'.approvals && st'.approvals[k] == st.approvals[k]
  {
    hide Blank, ValidSession, ValidCall, ValidApproval, ApplySession, ApplyCall, Asked;
    if e.ApprovalRequested? {
      var request := e.approval.(verdict := Pending);
      AskedStays(st, k, a, request.callId);
      assert st.approvals[request.approvalId := request][k := a] == st.approvals[k := a][request.approvalId := request];
    }
  }

  /** So a decision before events that decide nothing gives the same state, decided. */
  lemma {:induction false} FoldCommutes(runId: string, head: seq<Event>, events: seq<Event>, tail: seq<Event>,
                                        k: string, a: ApprovalRequest)
    requires Decides(runId, head, events, k, a) && NoDecision(tail) && Fold(runId, head + tail).Some?
    ensures Fold(runId, head + events + tail) == Some(WithDecided(Fold(runId, head + tail).value, k, a))
    ensures var st := Fold(runId, head + tail).value;
            k in st.approvals && st.approvals[k] == Fold(runId, head).value.approvals[k]
    decreases |tail|
  {
    hide Fold, Step, Decides, WithDecided;
    if tail == [] {
      assert head + events + tail == head + events && head + tail == head;
      DecidesFolds(runId, head, events, k, a);
    } else {
      var n := |tail| - 1;
      var shorter, e := tail[..n], tail[n];
      assert head + tail == (head + shorter) + [e] && head + events + tail == (head + events + shorter) + [e];
      FoldSnoc(runId, head + shorter, e);
      FoldCommutes(runId, head, events, shorter, k, a);
      DecidedIsSame(runId, head, events, k, a);
      OneMoreCommutes(runId, head + shorter, head + events + shorter, e, k, a);
    }
  }

  lemma OneMoreCommutes(runId: string, log: seq<Event>, longer: seq<Event>, e: Event, k: string, a: ApprovalRequest)
    requires Fold(runId, log + [e]).Some? && Fold(runId, log).Some? && !e.ApprovalDecided?
    requires Fold(runId, longer) == Some(WithDecided(Fold(runId, log).value, k, a))
    requires k in Fold(runId, log).value.approvals && SameApproval(a, Fold(runId, log).value.approvals[k])
    ensures Fold(runId, longer + [e]) == Some(WithDecided(Fold(runId, log + [e]).value, k, a))
    ensures var st := Fold(runId, log + [e]).value;
            k in st.approvals && st.approvals[k] == Fold(runId, log).value.approvals[k]
  {
    hide Fold, Step, WithDecided;
    FoldSnoc(runId, log, e);
    FoldSnoc(runId, longer, e);
    StepCommutes(runId, Fold(runId, log).value, k, a, e);
  }

  lemma DecidesFolds(runId: string, log: seq<Event>, events: seq<Event>, k: string, a: ApprovalRequest)
    requires Decides(runId, log, events, k, a)
    ensures k in Fold(runId, log).value.approvals
    ensures Fold(runId, log + events) == Some(WithDecided(Fold(runId, log).value, k, a))
  {
    hide Fold, WithDecided;
  }

  lemma DecidedIsSame(runId: string, head: seq<Event>, events: seq<Event>, k: string, a: ApprovalRequest)
    requires Decides(runId, head, events, k, a)
    ensures Fold(runId, head).Some? && k in Fold(runId, head).value.approvals
    ensures SameApproval(a, Fold(runId, head).value.approvals[k])
    ensures Fold(runId, head).value.approvals[k].verdict.Pending? && !EndsInRequest(head) && Decisive(events)
  {
    hide Fold;
  }

  // ----- The whole log -----

  /** At every later position the state is as it was, decided. */
  lemma FoldsAt(runId: string, head: seq<Event>, events: seq<Event>, tail: seq<Event>, k: string, a: ApprovalRequest,
                n: nat)
    requires Decides(runId, head, events, k, a) && NoDecision(tail) && Fold(runId, head + tail).Some? && n <= |tail|
    ensures Fold(runId, head + tail[..n]).Some?
    ensures Fold(runId, head + events + tail[..n]) == Some(WithDecided(Fold(runId, head + tail[..n]).value, k, a))
    ensures var st := Fold(runId, head + tail[..n]).value;
            k in st.approvals && st.approvals[k] == Fold(runId, head).value.approvals[k]
  {
    hide Fold, Decides, Later, WithDecided;
    PrefixFolds(runId, head + tail, |head| + n);
    assert (head + tail)[..|head| + n] == head + tail[..n];
    FoldCommutes(runId, head, events, tail[..n], k, a);
  }

  lemma ShorterIsPaired(log: seq<Event>, e: Event)
    requires Paired(log + [e])
    ensures Paired(log) && (EndsInRequest(log) ==> Records(log[|log| - 1].call, e))
  {
    var longer := log + [e];
    assert forall i | 0 <= i < |log| :: longer[i] == log[i];
    if EndsInRequest(log) {
      assert Records(longer[|log| - 1].call, longer[(|log| - 1) + 1]);
    }
    forall i | 0 <= i && i + 1 < |log| && log[i].ToolCallRequested?
      ensures Records(log[i].call, log[i + 1])
    {
      assert longer[i + 1] == log[i + 1];
    }
  }

  lemma ShorterIsKnown(runId: string, log: seq<Event>, e: Event)
    requires Known(runId, log + [e])
    ensures Known(runId, log)
    ensures e.ToolIntent? ==> Fold(runId, log).Some? && e.callId in Fold(runId, log).value.calls
  {
    hide Fold;
    var longer := log + [e];
    assert longer[..|log|] == log && longer[|log|] == e;
    forall i | 0 <= i < |log| && log[i].ToolIntent?
      ensures Fold(runId, log[..i]).Some? && log[i].callId in Fold(runId, log[..i]).value.calls
    {
      assert longer[i] == log[i] && longer[..i] == log[..i];
    }
  }

  /** Requests and intents stay paired, and intents known, event after event of the tail. */
  lemma {:induction false} InsertedIsRecorded(runId: string, head: seq<Event>, events: seq<Event>, tail: seq<Event>,
                                              k: string, a: ApprovalRequest)
    requires Decides(runId, head, events, k, a) && NoDecision(tail) && Fold(runId, head + tail).Some?
    requires Paired(head + tail) && Known(runId, head + tail)
    requires Paired(head + events) && Known(runId, head + events) && !EndsInRequest(head + events)
    ensures Paired(head + events + tail) && Known(runId, head + events + tail)
    ensures EndsInRequest(head + events + tail) ==> tail != [] && tail[|tail| - 1].ToolCallRequested?
    decreases |tail|
  {
    hide Fold, Decides, Paired, Known, WithDecided, EndsInRequest, SameRequestAtEnd;
    if tail == [] {
      assert head + events + tail == head + events;
    } else {
      var n := |tail| - 1;
      var shorter, e := tail[..n], tail[n];
      LastApart(head, events, tail);
      ShorterIsPaired(head + shorter, e);
      ShorterIsKnown(runId, head + shorter, e);
      FoldsAt(runId, head, events, tail, k, a, n);
      InsertedIsRecorded(runId, head, events, shorter, k, a);
      EndsAlike(head, events, shorter);
      OneMoreRecorded(runId, head + shorter, head + events + shorter, e, k, a);
      EndsInLast(head + events + shorter, e);
    }
  }

  lemma LastApart(head: seq<Event>, events: seq<Event>, tail: seq<Event>)
    requires tail != []
    ensures var n := |tail| - 1;
            && head + tail == (head + tail[..n]) + [tail[n]]
            && head + events + tail == (head + events + tail[..n]) + [tail[n]]
            && (NoDecision(tail) ==> NoDecision(tail[..n]))
  {
    assert forall i | 0 <= i < |tail| - 1 :: tail[..|tail| - 1][i] == tail[i];
  }

  predicate SameRequestAtEnd(log: seq<Event>, longer: seq<Event>) {
    EndsInRequest(longer) ==> EndsInRequest(log) && longer[|longer| - 1] == log[|log| - 1]
  }

  lemma EndsAlike(head: seq<Event>, events: seq<Event>, tail: seq<Event>)
    requires EndsInRequest(head + events + tail) ==> tail != [] && tail[|tail| - 1].ToolCallRequested?
    ensures SameRequestAtEnd(head + tail, head + events + tail)
  {
    if tail != [] {
      SameEnd(head, events, tail);
    }
  }

  lemma EndsInLast(log: seq<Event>, e: Event)
    ensures EndsInRequest(log + [e]) <==> e.ToolCallRequested?
  {
  }

  lemma OneMoreRecorded(runId: string, log: seq<Event>, longer: seq<Event>, e: Event, k: string, a: ApprovalRequest)
    requires Fold(runId, log).Some? && Fold(runId, longer) == Some(WithDecided(Fold(runId, log).value, k, a))
    requires Paired(log + [e]) && Known(runId, log + [e]) && Paired(longer) && Known(runId, longer)
    requires SameRequestAtEnd(log, longer)
    ensures Paired(longer + [e]) && Known(runId, longer + [e])
  {
    ShorterIsPaired(log, e);
    ShorterIsKnown(runId, log, e);
    CallsAlike(Fold(runId, log).value, k, a);
    hide Fold, Paired, Known, WithDecided;
    PairedSnoc(longer, e);
    KnownSnoc(runId, longer, e);
  }

  lemma CallsAlike(st: RunState, k: string, a: ApprovalRequest)
    ensures WithDecided(st, k, a).calls == st.calls
  {
  }

  lemma SameEnd(head: seq<Event>, events: seq<Event>, tail: seq<Event>)
    requires tail != []
    ensures (head + events + tail)[|head + events + tail| - 1] == tail[|tail| - 1]
    ensures (head + tail)[|head + tail| - 1] == tail[|tail| - 1]
  {
  }

  lemma StillCleared(st: RunState, k: string, a: ApprovalRequest, callId: string)
    requires Cleared(st.approvals, callId) && k in st.approvals
    requires st.approvals[k].verdict.Pending? && SameApproval(a, st.approvals[k])
    ensures Cleared(WithDecided(st, k, a).approvals, callId)
  {
  }

  lemma LicenceMoves(runId: string, log: seq<Event>, i: nat, longer: seq<Event>, j: nat, k: string, a: ApprovalRequest)
    requires Licensed(runId, log, i) && j < |longer| && longer[j] == log[i]
    requires Fold(runId, longer[..j]) == Some(WithDecided(Fold(runId, log[..i]).value, k, a))
    requires k in Fold(runId, log[..i]).value.approvals && Fold(runId, log[..i]).value.approvals[k].verdict.Pending?
    requires SameApproval(a, Fold(runId, log[..i]).value.approvals[k])
    ensures Licensed(runId, longer, j)
  {
    hide Fold, Cleared, WithDecided;
    StillCleared(Fold(runId, log[..i]).value, k, a, log[i].call.callId);
  }

  lemma EarlyLicence(runId: string, head: seq<Event>, events: seq<Event>, tail: seq<Event>, i: nat)
    requires i < |head| && Licensed(runId, head + tail, i)
    ensures Licensed(runId, head + events + tail, i)
  {
    hide Fold, Cleared;
    assert (head + events + tail)[..i] == (head + tail)[..i];
  }

  lemma LateLicence(runId: string, head: seq<Event>, events: seq<Event>, tail: seq<Event>, k: string,
                    a: ApprovalRequest, n: nat)
    requires n < |tail| && Licensed(runId, head + tail, |head| + n) && Fold(runId, head + tail).Some?
    requires Decides(runId, head, events, k, a) && NoDecision(tail)
    ensures Licensed(runId, head + events + tail, |head| + n + |events|)
  {
    hide Fold, Decides, Licensed, WithDecided, NoDecision;
    DecidedIsSame(runId, head, events, k, a);
    FoldsAt(runId, head, events, tail, k, a, n);
    MovedAlong(head, events, tail, n);
    LicenceMoves(runId, head + tail, |head| + n, head + events + tail, |head| + n + |events|, k, a);
  }

  /** A run licensed before stays so, at its new position. */
  lemma InsertedIsLicensed(runId: string, head: seq<Event>, events: seq<Event>, tail: seq<Event>, k: string,
                           a: ApprovalRequest, i: nat)
    requires Licensed(runId, head + tail, i) && Fold(runId, head + tail).Some?
    requires Decides(runId, head, events, k, a) && NoDecision(tail)
    ensures Licensed(runId, head + events + tail, if i < |head| then i else i + |events|)
  {
    hide Fold, Decides, Licensed, NoDecision;
    if i < |head| {
      EarlyLicence(runId, head, events, tail, i);
    } else {
      LicenceIsWithin(runId, head + tail, i);
      var n: nat := i - |head|;
      assert i == |head| + n;
      LateLicence(runId, head, events, tail, k, a, n);
    }
  }

  lemma LicenceIsWithin(runId: string, log: seq<Event>, i: nat)
    requires Licensed(runId, log, i)
    ensures i < |log|
  {
  }

  lemma MovedAlong(head: seq<Event>, events: seq<Event>, tail: seq<Event>, n: nat)
    requires n < |tail|
    ensures (head + tail)[|head| + n] == tail[n] && (head + tail)[..|head| + n] == head + tail[..n]
    ensures (head + events + tail)[|head| + n + |events|] == tail[n]
    ensures (head + events + tail)[..|head| + n + |events|] == head + events + tail[..n]
  {
  }

  lemma InsertedRuns(runId: string, head: seq<Event>, events: seq<Event>, tail: seq<Event>, k: string,
                     a: ApprovalRequest, runs: seq<nat>)
    requires AllLicensed(runId, head + tail, runs) && Fold(runId, head + tail).Some?
    requires Decides(runId, head, events, k, a) && NoDecision(tail)
    ensures AllLicensed(runId, head + events + tail, Shifted(runs, |head|, |events|))
  {
    hide Fold, Decides, Licensed;
    var shifted := Shifted(runs, |head|, |events|);
    forall j | 0 <= j < |shifted|
      ensures Licensed(runId, head + events + tail, shifted[j])
    {
      InsertedIsLicensed(runId, head, events, tail, k, a, runs[j]);
    }
  }

  /** A sound log with a decision inserted is a sound log, its runs moved along, and its state
      is the same, decided. */
  lemma InsertedIsSound(runId: string, log: seq<Event>, runs: seq<nat>, at: nat, events: seq<Event>, k: string,
                        a: ApprovalRequest)
    requires Sound(runId, log, runs) && at <= |log|
    requires Decides(runId, log[..at], events, k, a) && NoDecision(log[at..])
    requires Paired(log[..at] + events) && Known(runId, log[..at] + events) && !EndsInRequest(log[..at] + events)
    ensures Sound(runId, Inserted(log, at, events), Shifted(runs, at, |events|))
    ensures Fold(runId, Inserted(log, at, events)) == Some(WithDecided(Fold(runId, log).value, k, a))
    ensures var st := Fold(runId, log).value;
            k in st.approvals && st.approvals[k].verdict.Pending? && SameApproval(a, st.approvals[k])
    ensures EndsInRequest(Inserted(log, at, events)) ==> EndsInRequest(log)
  {
    var head, tail := log[..at], log[at..];
    assert log == head + tail;
    hide Fold, Decides, AllLicensed, Ided, Paired, Known, NoDecision;
    DecidedIsSame(runId, head, events, k, a);
    FoldCommutes(runId, head, events, tail, k, a);
    InsertedIsRecorded(runId, head, events, tail, k, a);
    InsertedRuns(runId, head, events, tail, k, a, runs);
    if tail != [] {
      SameEnd(head, events, tail);
    }
  }

  /** And a live session goes on in agreement with it. */
  lemma InsertedAgrees(l: Live, at: nat, events: seq<Event>, k: string, a: ApprovalRequest)
    requires Agreed(l) && at <= |l.log|
    requires Decides(l.session.runId, l.log[..at], events, k, a) && NoDecision(l.log[at..])
    requires var head := l.log[..at] + events; Paired(head) && Known(l.session.runId, head) && !EndsInRequest(head)
    ensures var m := l.(log := Inserted(l.log, at, events), runs := Shifted(l.runs, at, |events|));
            && Agreed(m) && Rebuilt(m) == Some(WithDecided(Rebuilt(l).value, k, a))
  {
    var m := l.(log := Inserted(l.log, at, events), runs := Shifted(l.runs, at, |events|));
    AgreedIsSound(l);
    AgreedParts(l);
    hide Agreed, Fold, Decides;
    InsertedIsSound(l.session.runId, l.log, l.runs, at, events, k, a);
    SoundIsRecorded(m);
    hide Sound, Recorded;
    TracksDecided(l, m, Rebuilt(l).value, k, a);
    AgreedFrom(m);
  }

  lemma AgreedParts(l: Live)
    requires Agreed(l)
    ensures Rebuilt(l).Some? && Tracks(l, Rebuilt(l).value) && Balanced(l) && !EndsInRequest(l.log)
  {
    hide Tracks, Fold, Balanced;
  }

  lemma AgreedFrom(l: Live)
    requires Rebuilt(l).Some? && Tracks(l, Rebuilt(l).value) && Balanced(l) && Recorded(l)
    ensures Agreed(l)
  {
    hide Tracks, Fold, Balanced, Recorded;
  }

  lemma SoundIsRecorded(l: Live)
    requires Sound(l.session.runId, l.log, l.runs) && !EndsInRequest(l.log)
    ensures Recorded(l)
  {
    hide Fold, Paired, Known, AllLicensed, Ided;
  }

  lemma TracksDecided(l: Live, m: Live, st: RunState, k: string, a: ApprovalRequest)
    requires Tracks(l, st) && m == l.(log := m.log, runs := m.runs)
    ensures Tracks(m, WithDecided(st, k, a))
  {
    hide Numbered, OfRun, ValidSession;
    var st' := WithDecided(st, k, a);
    forall id | id in st'.calls
      ensures Backed(st', id)
    {
      assert Backed(st, id);
    }
  }
}
