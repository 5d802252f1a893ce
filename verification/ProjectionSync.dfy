/** Keeping the tables in step with the traces of several runs. */
module ProjectionSync {
  import opened Texts
  import opened Lifecycle
  import opened Entities
  import opened EvidenceLog
  import opened Projection

  type Traces = map<string, seq<Record>>

  /** Each trace is a valid chain of its own run's events. */
  predicate OwnTraces(logs: Traces) {
    forall run | run in logs ::
      Chained(logs[run]) && forall i | 0 <= i < |logs[run]| :: RunOf(logs[run][i].content) == run
  }

  predicate Mentions(r: Record, k: string) {
    (r.content.ApprovalRequested? || r.content.ApprovalDecided?) && r.content.approval.approvalId == k
  }

  /** Approval ids are drawn at random: no two runs share one. */
  ghost predicate DistinctApprovals(logs: Traces) {
    forall a, b, i, j, k | a in logs && b in logs && 0 <= i < |logs[a]| && 0 <= j < |logs[b]|
                           && Mentions(logs[a][i], k) && Mentions(logs[b][j], k) :: a == b
  }

  ghost predicate Fine(logs: Traces) { OwnTraces(logs) && DistinctApprovals(logs) }

  /** Every row stems from the trace of its run. */
  predicate Accounted(db: Tables, logs: Traces) {
    && (forall h | h in db.seen ::
          db.seen[h] in logs && exists i | 0 <= i < |logs[db.seen[h]]| :: logs[db.seen[h]][i].hash == h)
    && (forall k | k in db.approvals ::
          var run := db.approvals[k].approval.runId;
          run in logs && exists i | 0 <= i < |logs[run]| :: Mentions(logs[run][i], k))
  }

  /** The rows a run should have. */
  function RowsOf(logs: Traces, run: string): Tables {
    if run !in logs then EMPTY
    else
      var p := ApplyAll(EMPTY, logs[run]);
      if p.Done? then p.db else EMPTY
  }

  function TraceOf(logs: Traces, run: string): seq<Record> {
    if run in logs then logs[run] else []
  }

  /** The run's rows are the projection of the first n events of its trace. */
  predicate AtPrefix(db: Tables, logs: Traces, run: string, n: nat) {
    n <= |TraceOf(logs, run)| && ApplyAll(EMPTY, TraceOf(logs, run)[..n]) == Done(Slice(db, run))
  }

  // ----- Rows and where they come from -----

  lemma OwnEventsAreSeparate(db: Tables, logs: Traces, run: string, i: nat)
    requires Fine(logs) && Accounted(db, logs) && run in logs && i < |logs[run]|
    ensures Separate(db, logs[run][i])
  {
    var r := logs[run][i];
    if r.hash in db.seen {
      var b := db.seen[r.hash];
      var j :| 0 <= j < |logs[b]| && logs[b][j].hash == r.hash;
      assert EventHash(logs[b][j]) == EventHash(r);
      assert logs[b][j].content == r.content;
    }
    if r.content.ApprovalRequested? || r.content.ApprovalDecided? {
      var k := r.content.approval.approvalId;
      if k in db.approvals {
        var b := db.approvals[k].approval.runId;
        var j :| 0 <= j < |logs[b]| && Mentions(logs[b][j], k);
        assert Mentions(r, k);
      }
    }
  }

  lemma ApplyAccounts(db: Tables, logs: Traces, run: string, i: nat)
    requires Accounted(db, logs) && run in logs && i < |logs[run]| && RunOf(logs[run][i].content) == run
    requires Apply(db, logs[run][i]).Done?
    ensures Accounted(Apply(db, logs[run][i]).db, logs)
  {
    var r := logs[run][i];
    var db' := Apply(db, r).db;
    NewRows(db, r);
    forall h | h in db'.seen
      ensures db'.seen[h] in logs && exists j | 0 <= j < |logs[db'.seen[h]]| :: logs[db'.seen[h]][j].hash == h
    {
      if !(h in db.seen && db'.seen[h] == db.seen[h]) {
        assert logs[run][i].hash == h;
      }
    }
    forall k | k in db'.approvals
      ensures db'.approvals[k].approval.runId in logs
      ensures var log := logs[db'.approvals[k].approval.runId]; exists j | 0 <= j < |log| :: Mentions(log[j], k)
    {
      if !(k in db.approvals && db'.approvals[k].approval.runId == db.approvals[k].approval.runId) {
        assert Mentions(logs[run][i], k);
      }
    }
  }

  /** What one event can add to the approvals. */
  lemma NewApprovals(db: Tables, e: Event, source: Hash, k: string)
    requires Projected(e) && Handle(db, e, source).Done? && k in Handle(db, e, source).db.approvals
    ensures var db' := Handle(db, e, source).db;
            || (k in db.approvals && db'.approvals[k].approval.runId == db.approvals[k].approval.runId)
            || (&& (e.ApprovalRequested? || e.ApprovalDecided?) && e.approval.approvalId == k
                && db'.approvals[k].approval.runId == RunOf(e))
  {
    hide Blank, ValidSession, ValidCall, ProjectableApproval, VerdictText, StampText, SessionEdge, CallEdge;
  }

  lemma NewSeen(db: Tables, r: Record)
    requires Apply(db, r).Done?
    ensures var db' := Apply(db, r).db;
            if Projected(r.content) && r.hash !in db.seen
            then db'.seen == db.seen[r.hash := RunOf(r.content)]
                 && Handle(db, r.content, r.hash).Done? && db'.approvals == Handle(db, r.content, r.hash).db.approvals
            else db' == db
  {
    if Projected(r.content) {
      SeenUntouched(db, r.content, r.hash);
    }
    hide Handle, Projected;
  }

  lemma SeenUntouched(db: Tables, e: Event, source: Hash)
    requires Projected(e)
    ensures Handle(db, e, source).Done? ==> Handle(db, e, source).db.seen == db.seen
  {
    hide Blank, ValidSession, ValidCall, ProjectableApproval, VerdictText, StampText, SessionEdge, CallEdge;
  }

  /** What one event can add. */
  lemma NewRows(db: Tables, r: Record)
    requires Apply(db, r).Done?
    ensures var db' := Apply(db, r).db;
            && (forall h | h in db'.seen ::
                  || (h in db.seen && db'.seen[h] == db.seen[h])
                  || (h == r.hash && db'.seen[h] == RunOf(r.content)))
            && (forall k | k in db'.approvals ::
                  || (k in db.approvals && db'.approvals[k].approval.runId == db.approvals[k].approval.runId)
                  || (Mentions(r, k) && db'.approvals[k].approval.runId == RunOf(r.content)))
  {
    NewSeen(db, r);
    hide Apply, Handle, Projected;
    var db' := Apply(db, r).db;
    forall k | k in db'.approvals
      ensures || (k in db.approvals && db'.approvals[k].approval.runId == db.approvals[k].approval.runId)
              || (Mentions(r, k) && db'.approvals[k].approval.runId == RunOf(r.content))
    {
      if Projected(r.content) && r.hash !in db.seen {
        NewApprovals(db, r.content, r.hash, k);
      }
    }
  }

  /** Applying a run's own events commutes with slicing, the whole transaction through. */
  lemma {:induction false} ApplyAllIsLocal(db: Tables, logs: Traces, run: string, n: nat, other: string)
    requires Fine(logs) && Accounted(db, logs) && run in logs && n <= |logs[run]| && other != run
    ensures var whole, part := ApplyAll(db, logs[run][..n]), ApplyAll(Slice(db, run), logs[run][..n]);
            && whole.Done? == part.Done?
            && (whole.Done? ==> && Slice(whole.db, run) == part.db && Slice(whole.db, other) == Slice(db, other)
                                && Accounted(whole.db, logs))
  {
    hide Slice, Apply, Chained;
    var records := logs[run][..n];
    if n > 0 {
      var shorter := logs[run][..n - 1];
      assert records[..|records| - 1] == shorter && records[|records| - 1] == logs[run][n - 1];
      ApplyAllIsLocal(db, logs, run, n - 1, other);
      var before := ApplyAll(db, shorter);
      if before.Done? {
        OwnEventsAreSeparate(before.db, logs, run, n - 1);
        assert RunOf(logs[run][n - 1].content) == run;
        ApplyIsLocal(before.db, logs[run][n - 1], other);
        if Apply(before.db, logs[run][n - 1]).Done? {
          ApplyAccounts(before.db, logs, run, n - 1);
        }
      }
    }
  }

  lemma WithoutRunSlices(db: Tables, run: string, other: string)
    requires other != run
    ensures Slice(WithoutRun(db, run), run) == EMPTY
    ensures Slice(WithoutRun(db, run), other) == Slice(db, other)
  {
    SessionsLeft(db, run, other);
    CallsLeft(db, run, other);
    ApprovalsLeft(db, run, other);
    SeenLeft(db, run, other);
    hide WithoutRun, SessionsOf, CallsOf, ApprovalsOf, SeenOf;
  }

  lemma SessionsLeft(db: Tables, run: string, other: string)
    requires other != run
    ensures var left := WithoutRun(db, run).sessions;
            SessionsOf(left, run) == map[] && SessionsOf(left, other) == SessionsOf(db.sessions, other)
  {
    hide SessionsOf;
  }

  lemma CallsLeft(db: Tables, run: string, other: string)
    requires other != run
    ensures var left := WithoutRun(db, run).calls;
            CallsOf(left, run) == map[] && CallsOf(left, other) == CallsOf(db.calls, other)
  {
    hide CallsOf;
  }

  lemma ApprovalsLeft(db: Tables, run: string, other: string)
    requires other != run
    ensures var left := WithoutRun(db, run).approvals;
            ApprovalsOf(left, run) == map[] && ApprovalsOf(left, other) == ApprovalsOf(db.approvals, other)
  {
    hide ApprovalsOf;
  }

  lemma SeenLeft(db: Tables, run: string, other: string)
    requires other != run
    ensures var left := WithoutRun(db, run).seen;
            SeenOf(left, run) == map[] && SeenOf(left, other) == SeenOf(db.seen, other)
  {
    hide SeenOf;
  }

  /** `rebuild_run` as a transaction. */
  function RebuiltRun(db: Tables, run: string, records: seq<Record>): Handled {
    ApplyAll(WithoutRun(db, run), records)
  }

  /** A rebuild of one run from the first n events of its trace gives it the rows of these,
      whatever rows it had, and leaves the others. */
  lemma RebuildRunRepairs(db: Tables, logs: Traces, run: string, n: nat, other: string)
    requires Fine(logs) && Accounted(db, logs) && run in logs && n <= |logs[run]| && other != run
    ensures RebuiltRun(db, run, logs[run][..n]).Done? <==> ApplyAll(EMPTY, logs[run][..n]).Done?
    ensures var h := RebuiltRun(db, run, logs[run][..n]);
            h.Done? ==> AtPrefix(h.db, logs, run, n) && Slice(h.db, other) == Slice(db, other) && Accounted(h.db, logs)
  {
    hide Slice, Fine, Apply;
    WithoutRunSlices(db, run, other);
    assert Accounted(WithoutRun(db, run), logs);
    ApplyAllIsLocal(WithoutRun(db, run), logs, run, n, other);
  }

  // ----- Rebuilding everything -----

  /** `rebuild` as a transaction, over the traces in a given order. */
  function RebuiltAll(logs: Traces, order: seq<string>): Handled
    requires forall i | 0 <= i < |order| :: order[i] in logs
  {
    if order == [] then Done(EMPTY)
    else
      var before := RebuiltAll(logs, order[..|order| - 1]);
      if before.Failed_? then before else ApplyAll(before.db, logs[order[|order| - 1]])
  }

  /** Rebuilding succeeds exactly if each run can be projected on its own, in any order, and
      puts the runs it covers in step. */
  lemma {:induction false} RebuiltAllIsInStep(logs: Traces, order: seq<string>, run: string)
    requires Fine(logs) && Distinct(order) && forall i | 0 <= i < |order| :: order[i] in logs
    ensures var h := RebuiltAll(logs, order);
            && (h.Done? <==> forall i | 0 <= i < |order| :: ApplyAll(EMPTY, logs[order[i]]).Done?)
            && (h.Done? ==>
                  && Accounted(h.db, logs)
                  && Slice(h.db, run) == if run in order then RowsOf(logs, run) else EMPTY)
  {
    hide Slice, Apply, Chained, DistinctApprovals;
    EmptySlices(run);
    if order != [] {
      var n := |order| - 1;
      var last, shorter := order[n], order[..n];
      assert order == shorter + [last];
      RebuiltAllIsInStep(logs, shorter, run);
      if run != last {
        RebuiltAllIsInStep(logs, shorter, last);
      }
      if RebuiltAll(logs, shorter).Done? {
        var before := RebuiltAll(logs, shorter).db;
        assert last !in shorter;
        assert logs[last][..|logs[last]|] == logs[last];
        ApplyAllIsLocal(before, logs, last, |logs[last]|, if run == last then last + "'" else run);
      }
    }
  }

  lemma EmptySlices(run: string)
    ensures Slice(EMPTY, run) == EMPTY
  {
  }

  /** Tables whose slices agree for every run are the same tables. */
  lemma SlicesDetermineTables(a: Tables, b: Tables)
    requires forall run :: Slice(a, run) == Slice(b, run)
    ensures a == b
  {
    forall k
      ensures k in a.sessions <==> k in b.sessions
      ensures k in a.sessions ==> a.sessions[k] == b.sessions[k]
    {
      assert Slice(a, k) == Slice(b, k);
      assert k in a.sessions <==> k in Slice(a, k).sessions;
    }
    forall k: (string, string)
      ensures k in a.calls <==> k in b.calls
      ensures k in a.calls ==> a.calls[k] == b.calls[k]
    {
      assert Slice(a, k.0) == Slice(b, k.0);
      assert k in a.calls <==> k in Slice(a, k.0).calls;
    }
    ApprovalsDetermined(a, b);
    ApprovalsDetermined(b, a);
    assert a.approvals == b.approvals;
    SeenDetermined(a, b);
    SeenDetermined(b, a);
    assert a.seen == b.seen;
  }

  lemma ApprovalsDetermined(a: Tables, b: Tables)
    requires forall run :: Slice(a, run) == Slice(b, run)
    ensures forall k | k in a.approvals :: k in b.approvals && a.approvals[k] == b.approvals[k]
  {
    forall k | k in a.approvals
      ensures k in b.approvals && a.approvals[k] == b.approvals[k]
    {
      var run := a.approvals[k].approval.runId;
      assert Slice(a, run) == Slice(b, run);
      assert k in Slice(a, run).approvals;
    }
  }

  lemma SeenDetermined(a: Tables, b: Tables)
    requires forall run :: Slice(a, run) == Slice(b, run)
    ensures forall h | h in a.seen :: h in b.seen && a.seen[h] == b.seen[h]
  {
    forall h | h in a.seen
      ensures h in b.seen && a.seen[h] == b.seen[h]
    {
      var run := a.seen[h];
      assert Slice(a, run) == Slice(b, run);
      assert h in Slice(a, run).seen;
    }
  }

  // ----- Any interleaving -----

  /** The tables and the traces; for each run how many events of its trace its rows stand for;
      and the runs of which an event was applied out of turn. */
  datatype Store = Store(db: Tables, logs: Traces, counts: map<string, nat>, stale: set<string>)

  function Reach(s: Store, run: string): nat {
    if run in s.counts then s.counts[run] else 0
  }

  /** What the processes that share the tables do, one step each. Nothing but the write is done
      under the lock of the run: a process applies its event, or commits its rebuild, when it
      gets to it. */
  datatype Move =
    | Writes(run: string, r: Record)
    | Applies(run: string, i: nat)
    // a rebuild that read the trace when it had n events
    | RebuildsRun(run: string, n: nat)
    | RebuildsAll(order: seq<string>, counts: map<string, nat>)

  function Extended(logs: Traces, run: string, r: Record): Traces {
    logs[run := TraceOf(logs, run) + [r]]
  }

  /** Nothing in these events is projected. */
  predicate Idle(records: seq<Record>) {
    forall i | 0 <= i < |records| :: !Projected(records[i].content)
  }

  /** No event that is projected lies between those the rows stand for and the i-th. */
  predicate InTurn(s: Store, run: string, i: nat)
    requires run in s.logs && i < |s.logs[run]|
  {
    Reach(s, run) <= i && Idle(s.logs[run][Reach(s, run)..i])
  }

  predicate Counted(order: seq<string>, counts: map<string, nat>, logs: Traces) {
    && Distinct(order)
    && forall i | 0 <= i < |order| ::
         order[i] in logs && order[i] in counts && counts[order[i]] <= |logs[order[i]]|
  }

  function Cut(logs: Traces, order: seq<string>, counts: map<string, nat>): (cut: Traces)
    requires Counted(order, counts, logs)
    ensures forall run :: run in cut <==> run in order
  {
    map run | run in order :: logs[run][..counts[run]]
  }

  ghost function Play(s: Store, m: Move): Store {
    match m
    case Writes(run, r) =>
      var logs := Extended(s.logs, run, r);
      if Fine(logs) then s.(logs := logs) else s
    case Applies(run, i) =>
      if run !in s.logs || i >= |s.logs[run]| || Apply(s.db, s.logs[run][i]).Failed_? then s
      else
        var applied := s.(db := Apply(s.db, s.logs[run][i]).db);
        if run in s.stale || i < Reach(s, run) then applied
        else if InTurn(s, run, i) then applied.(counts := s.counts[run := i + 1])
        else applied.(stale := s.stale + {run})
    case RebuildsRun(run, n) =>
      if run !in s.logs || n > |s.logs[run]| || RebuiltRun(s.db, run, s.logs[run][..n]).Failed_? then s
      else Store(RebuiltRun(s.db, run, s.logs[run][..n]).db, s.logs, s.counts[run := n], s.stale - {run})
    case RebuildsAll(order, counts) =>
      if !Counted(order, counts, s.logs) || RebuiltAll(Cut(s.logs, order, counts), order).Failed_? then s
      else Store(RebuiltAll(Cut(s.logs, order, counts), order).db, s.logs, map run | run in order :: counts[run], {})
  }

  ghost function PlayAll(s: Store, moves: seq<Move>): Store {
    if moves == [] then s else Play(PlayAll(s, moves[..|moves| - 1]), moves[|moves| - 1])
  }

  ghost predicate Tidy(s: Store) {
    && Fine(s.logs) && Accounted(s.db, s.logs)
    && forall run | run !in s.stale :: AtPrefix(s.db, s.logs, run, Reach(s, run))
  }

  // ----- Writing -----

  lemma AccountedGrows(db: Tables, logs: Traces, run: string, r: Record)
    requires Accounted(db, logs)
    ensures Accounted(db, Extended(logs, run, r))
  {
    var logs': Traces := Extended(logs, run, r);
    forall h | h in db.seen
      ensures exists i | 0 <= i < |logs'[db.seen[h]]| :: logs'[db.seen[h]][i].hash == h
    {
      var i :| 0 <= i < |logs[db.seen[h]]| && logs[db.seen[h]][i].hash == h;
      assert logs'[db.seen[h]][i].hash == h;
    }
    forall k | k in db.approvals
      ensures var a := db.approvals[k].approval.runId; exists i | 0 <= i < |logs'[a]| :: Mentions(logs'[a][i], k)
    {
      var a := db.approvals[k].approval.runId;
      var i :| 0 <= i < |logs[a]| && Mentions(logs[a][i], k);
      assert Mentions(logs'[a][i], k);
    }
  }

  lemma PrefixStays(db: Tables, logs: Traces, longer: Traces, run: string, n: nat)
    requires AtPrefix(db, logs, run, n) && TraceOf(logs, run) <= TraceOf(longer, run)
    ensures AtPrefix(db, longer, run, n)
  {
    hide Slice;
    assert TraceOf(longer, run)[..n] == TraceOf(logs, run)[..n];
  }

  lemma WritesTidily(s: Store, run: string, r: Record)
    requires Tidy(s)
    ensures Tidy(Play(s, Writes(run, r)))
  {
    hide Fine, Accounted, AtPrefix;
    var logs := Extended(s.logs, run, r);
    AccountedGrows(s.db, s.logs, run, r);
    if Fine(logs) {
      forall other | other !in s.stale
        ensures AtPrefix(s.db, logs, other, Reach(s, other))
      {
        PrefixStays(s.db, s.logs, logs, other, Reach(s, other));
      }
    }
  }

  // ----- Applying -----

  lemma OwnRun(logs: Traces, run: string, n: nat)
    requires Fine(logs) && run in logs && n < |logs[run]|
    ensures RunOf(logs[run][n].content) == run
  {
  }

  /** Every event of a projected prefix that is projected at all is marked as seen. */
  lemma {:induction false} PrefixIsSeen(records: seq<Record>, n: nat, i: nat)
    requires i < n <= |records| && ApplyAll(EMPTY, records[..n]).Done? && Projected(records[i].content)
    ensures records[i].hash in ApplyAll(EMPTY, records[..n]).db.seen
  {
    var m := n - 1;
    assert records[..n][..m] == records[..m] && records[..n][m] == records[m];
    hide ApplyAll, Apply, Handle, Projected;
    LastApplied(records, n);
    NewSeen(ApplyAll(EMPTY, records[..m]).db, records[m]);
    if i < m {
      PrefixIsSeen(records, m, i);
    }
  }

  lemma LastApplied(records: seq<Record>, n: nat)
    requires 0 < n <= |records|
    ensures var before := ApplyAll(EMPTY, records[..n - 1]);
            ApplyAll(EMPTY, records[..n]) == if before.Failed_? then before else Apply(before.db, records[n - 1])
  {
    assert records[..n][..n - 1] == records[..n - 1];
  }

  /** De-duplication: an event the rows already stand for changes nothing when it is applied
      again, or late, after a repair took it from the trace. */
  lemma AppliedAgain(db: Tables, logs: Traces, run: string, n: nat, i: nat)
    requires AtPrefix(db, logs, run, n) && i < n
    ensures Apply(db, TraceOf(logs, run)[i]) == Done(db)
  {
    var r := TraceOf(logs, run)[i];
    if Projected(r.content) {
      PrefixIsSeen(TraceOf(logs, run), n, i);
      hide ApplyAll, Projected;
      assert r.hash in Slice(db, run).seen;
    }
  }

  lemma {:induction false} IdleChangesNothing(records: seq<Record>, m: nat, n: nat)
    requires m <= n <= |records| && Idle(records[m..n])
    ensures ApplyAll(EMPTY, records[..n]) == ApplyAll(EMPTY, records[..m])
    decreases n
  {
    if m < n {
      assert records[m..n][..n - 1 - m] == records[m..n - 1] && records[m..n][n - 1 - m] == records[n - 1];
      LastApplied(records, n);
      hide ApplyAll, Projected;
      IdleChangesNothing(records, m, n - 1);
    }
  }

  /** The next event in turn, applied. */
  lemma AppliedInTurn(db: Tables, logs: Traces, run: string, m: nat, i: nat, other: string)
    requires Fine(logs) && Accounted(db, logs) && run in logs && m <= i < |logs[run]| && other != run
    requires AtPrefix(db, logs, run, m) && Idle(logs[run][m..i])
    ensures ApplyAll(EMPTY, logs[run][..i + 1]).Done? <==> Apply(db, logs[run][i]).Done?
    ensures var h := Apply(db, logs[run][i]);
            h.Done? ==> AtPrefix(h.db, logs, run, i + 1) && Slice(h.db, other) == Slice(db, other)
  {
    OwnEventsAreSeparate(db, logs, run, i);
    OwnRun(logs, run, i);
    hide Apply, Slice, Accounted, Fine, Separate, Idle, ApplyAll;
    ApplyIsLocal(db, logs[run][i], other);
    IdleChangesNothing(logs[run], m, i);
    LastApplied(logs[run], i + 1);
  }

  /** Whatever event is applied, only the rows of its run change. */
  lemma AppliedElsewhere(db: Tables, logs: Traces, run: string, i: nat, other: string)
    requires Fine(logs) && Accounted(db, logs) && run in logs && i < |logs[run]| && other != run
    requires Apply(db, logs[run][i]).Done?
    ensures Slice(Apply(db, logs[run][i]).db, other) == Slice(db, other)
    ensures Accounted(Apply(db, logs[run][i]).db, logs)
  {
    OwnEventsAreSeparate(db, logs, run, i);
    OwnRun(logs, run, i);
    ApplyAccounts(db, logs, run, i);
    hide Apply, Slice, Accounted, Fine, Separate;
    ApplyIsLocal(db, logs[run][i], other);
  }

  lemma SameSliceSamePrefix(db: Tables, db': Tables, logs: Traces, run: string, n: nat)
    requires AtPrefix(db, logs, run, n) && Slice(db', run) == Slice(db, run)
    ensures AtPrefix(db', logs, run, n)
  {
    hide Slice;
  }

  lemma AppliesTidily(s: Store, run: string, i: nat)
    requires Tidy(s)
    ensures Tidy(Play(s, Applies(run, i)))
  {
    hide Fine, Accounted, AtPrefix, Apply, Slice, Idle;
    if run in s.logs && i < |s.logs[run]| && Apply(s.db, s.logs[run][i]).Done? {
      var s' := Play(s, Applies(run, i));
      AppliedElsewhere(s.db, s.logs, run, i, run + "'");
      forall other | other !in s'.stale
        ensures AtPrefix(s'.db, s'.logs, other, Reach(s', other))
      {
        if other != run {
          AppliedElsewhere(s.db, s.logs, run, i, other);
          SameSliceSamePrefix(s.db, s'.db, s.logs, other, Reach(s, other));
        } else if i < Reach(s, run) {
          AppliedAgain(s.db, s.logs, run, Reach(s, run), i);
        } else {
          AppliedInTurn(s.db, s.logs, run, Reach(s, run), i, run + "'");
        }
      }
    }
  }

  // ----- Rebuilding -----

  lemma RebuildsRunTidily(s: Store, run: string, n: nat)
    requires Tidy(s)
    ensures Tidy(Play(s, RebuildsRun(run, n)))
  {
    hide Fine, Accounted, AtPrefix, RebuiltRun, Slice;
    if run in s.logs && n <= |s.logs[run]| && RebuiltRun(s.db, run, s.logs[run][..n]).Done? {
      var s' := Play(s, RebuildsRun(run, n));
      RebuildRunRepairs(s.db, s.logs, run, n, run + "'");
      forall other | other !in s'.stale
        ensures AtPrefix(s'.db, s'.logs, other, Reach(s', other))
      {
        if other != run {
          RebuildRunRepairs(s.db, s.logs, run, n, other);
          SameSliceSamePrefix(s.db, s'.db, s.logs, other, Reach(s, other));
        }
      }
    }
  }

  lemma CutIsFine(logs: Traces, order: seq<string>, counts: map<string, nat>)
    requires Fine(logs) && Counted(order, counts, logs)
    ensures Fine(Cut(logs, order, counts))
  {
    var cut := Cut(logs, order, counts);
    forall run | run in cut
      ensures Chained(cut[run])
    {
      ChainedPrefix(logs[run], counts[run]);
    }
  }

  lemma AccountedByMore(db: Tables, cut: Traces, logs: Traces)
    requires Accounted(db, cut) && forall run | run in cut :: run in logs && cut[run] <= logs[run]
    ensures Accounted(db, logs)
  {
    forall h | h in db.seen
      ensures db.seen[h] in logs && exists i | 0 <= i < |logs[db.seen[h]]| :: logs[db.seen[h]][i].hash == h
    {
      var i :| 0 <= i < |cut[db.seen[h]]| && cut[db.seen[h]][i].hash == h;
      assert logs[db.seen[h]][i].hash == h;
    }
    forall k | k in db.approvals
      ensures var a := db.approvals[k].approval.runId;
              a in logs && exists i | 0 <= i < |logs[a]| :: Mentions(logs[a][i], k)
    {
      var a := db.approvals[k].approval.runId;
      var i :| 0 <= i < |cut[a]| && Mentions(cut[a][i], k);
      assert Mentions(logs[a][i], k);
    }
  }

  lemma RebuiltAtPrefix(logs: Traces, order: seq<string>, counts: map<string, nat>, run: string)
    requires Fine(logs) && Counted(order, counts, logs) && RebuiltAll(Cut(logs, order, counts), order).Done?
    ensures var db := RebuiltAll(Cut(logs, order, counts), order).db;
            && Accounted(db, logs)
            && AtPrefix(db, logs, run, if run in order then counts[run] else 0)
  {
    var cut := Cut(logs, order, counts);
    CutIsFine(logs, order, counts);
    hide Fine, Slice, Accounted;
    RebuiltAllIsInStep(cut, order, run);
    AccountedByMore(RebuiltAll(cut, order).db, cut, logs);
    hide RebuiltAll;
    if run in order {
      var i :| 0 <= i < |order| && order[i] == run;
      assert ApplyAll(EMPTY, cut[order[i]]).Done?;
    } else {
      assert TraceOf(logs, run)[..0] == [];
    }
  }

  lemma RebuildsAllTidily(s: Store, order: seq<string>, counts: map<string, nat>)
    requires Tidy(s)
    ensures Tidy(Play(s, RebuildsAll(order, counts)))
  {
    hide Fine, Accounted, AtPrefix, RebuiltAll;
    if Counted(order, counts, s.logs) && RebuiltAll(Cut(s.logs, order, counts), order).Done? {
      var s' := Play(s, RebuildsAll(order, counts));
      RebuiltAtPrefix(s.logs, order, counts, "");
      forall run
        ensures AtPrefix(s'.db, s'.logs, run, Reach(s', run))
      {
        RebuiltAtPrefix(s.logs, order, counts, run);
      }
    }
  }

  // ----- Over every sequence of moves -----

  const NOTHING_STORED := Store(EMPTY, map[], map[], {})

  lemma PlaysTidily(s: Store, m: Move)
    requires Tidy(s)
    ensures Tidy(Play(s, m))
  {
    hide Tidy, Play;
    match m
    case Writes(run, r) => WritesTidily(s, run, r);
    case Applies(run, i) => AppliesTidily(s, run, i);
    case RebuildsRun(run, n) => RebuildsRunTidily(s, run, n);
    case RebuildsAll(order, counts) => RebuildsAllTidily(s, order, counts);
  }

  /** Over every interleaving of writes, of events applied in any order, late or again, and of
      rebuilds from whatever they had read: each run of which nothing was applied out of turn
      has exactly the rows of the events counted for it. */
  lemma {:induction false} MovesStayTidy(moves: seq<Move>)
    ensures Tidy(PlayAll(NOTHING_STORED, moves))
  {
    if moves == [] {
      forall run
        ensures Slice(EMPTY, run) == EMPTY
      {
        EmptySlices(run);
      }
    } else {
      hide Tidy, Play;
      MovesStayTidy(moves[..|moves| - 1]);
      PlaysTidily(PlayAll(NOTHING_STORED, moves[..|moves| - 1]), moves[|moves| - 1]);
    }
  }

  predicate Covers(order: seq<string>, logs: Traces) {
    && Distinct(order) && (forall i | 0 <= i < |order| :: order[i] in logs)
    && forall run | run in logs :: run in order
  }

  /** No event that is projected lies beyond those the rows stand for. */
  predicate CaughtUp(s: Store, run: string) {
    Reach(s, run) <= |TraceOf(s.logs, run)| && Idle(TraceOf(s.logs, run)[Reach(s, run)..])
  }

  lemma CaughtUpRows(s: Store, run: string)
    requires Tidy(s) && run !in s.stale && CaughtUp(s, run)
    ensures ApplyAll(EMPTY, TraceOf(s.logs, run)) == Done(Slice(s.db, run)) && Slice(s.db, run) == RowsOf(s.logs, run)
  {
    hide Fine, Accounted, Slice, ApplyAll, Idle;
    var records := TraceOf(s.logs, run);
    var n := |records|;
    assert AtPrefix(s.db, s.logs, run, Reach(s, run));
    assert records[..n] == records && records[Reach(s, run)..n] == records[Reach(s, run)..];
    IdleChangesNothing(records, Reach(s, run), n);
    NoEventsNoRows();
  }

  lemma NoEventsNoRows()
    ensures ApplyAll(EMPTY, []) == Done(EMPTY)
  {
  }

  lemma {:induction false} SeenIsOfThePrefix(records: seq<Record>, n: nat, h: Hash)
    requires n <= |records| && ApplyAll(EMPTY, records[..n]).Done? && h in ApplyAll(EMPTY, records[..n]).db.seen
    ensures exists i | 0 <= i < n :: records[i].hash == h
    decreases n
  {
    NoEventsNoRows();
    assert records[..0] == [];
    hide ApplyAll, Apply, Handle, Projected;
    if n > 0 {
      LastApplied(records, n);
      NewSeen(ApplyAll(EMPTY, records[..n - 1]).db, records[n - 1]);
      if h in ApplyAll(EMPTY, records[..n - 1]).db.seen {
        SeenIsOfThePrefix(records, n - 1, h);
      } else {
        assert records[n - 1].hash == h;
      }
    }
  }

  /** Rows of a prefix are those of the whole trace only if nothing beyond it is projected. */
  lemma SameRowsIsIdle(records: seq<Record>, n: nat)
    requires Chained(records) && n <= |records|
    requires ApplyAll(EMPTY, records).Done? && ApplyAll(EMPTY, records[..n]) == ApplyAll(EMPTY, records)
    ensures Idle(records[n..])
  {
    hide ApplyAll, Projected, Chained;
    assert records[..|records|] == records;
    forall i | 0 <= i < |records[n..]|
      ensures !Projected(records[n..][i].content)
    {
      var k := n + i;
      if Projected(records[k].content) {
        PrefixIsSeen(records, |records|, k);
        SeenIsOfThePrefix(records, n, records[k].hash);
        var j :| 0 <= j < n && records[j].hash == records[k].hash;
        HashesAreDistinct(records, j, k);
      }
    }
  }

  /** Whatever interleaving went before, with no event out of turn: the tables are those of a
      full rebuild of the traces, in any order of the runs, exactly if no trace has events to
      project beyond those its rows stand for. */
  lemma TablesEqualFullRebuild(moves: seq<Move>, order: seq<string>)
    requires PlayAll(NOTHING_STORED, moves).stale == {} && Covers(order, PlayAll(NOTHING_STORED, moves).logs)
    ensures var s := PlayAll(NOTHING_STORED, moves);
            RebuiltAll(s.logs, order) == Done(s.db) <==> forall run | run in s.logs :: CaughtUp(s, run)
  {
    var s := PlayAll(NOTHING_STORED, moves);
    MovesStayTidy(moves);
    hide PlayAll, Tidy;
    if forall run | run in s.logs :: CaughtUp(s, run) {
      CaughtUpEqualsRebuild(s, order);
    }
    if RebuiltAll(s.logs, order) == Done(s.db) {
      forall run | run in s.logs
        ensures CaughtUp(s, run)
      {
        RebuiltIsCaughtUp(s, order, run);
      }
    }
  }

  lemma CaughtUpEqualsRebuild(s: Store, order: seq<string>)
    requires Tidy(s) && s.stale == {} && Covers(order, s.logs) && forall run | run in s.logs :: CaughtUp(s, run)
    ensures RebuiltAll(s.logs, order) == Done(s.db)
  {
    hide Fine, Slice, CaughtUp, AtPrefix;
    forall i | 0 <= i < |order|
      ensures ApplyAll(EMPTY, s.logs[order[i]]).Done?
    {
      CaughtUpRows(s, order[i]);
    }
    RebuiltAllIsInStep(s.logs, order, "");
    forall run
      ensures Slice(RebuiltAll(s.logs, order).db, run) == Slice(s.db, run)
    {
      RebuiltAllIsInStep(s.logs, order, run);
      if run !in s.logs {
        NothingWritten(s, run);
      }
      CaughtUpRows(s, run);
    }
    SlicesDetermineTables(RebuiltAll(s.logs, order).db, s.db);
  }

  lemma NothingWritten(s: Store, run: string)
    requires Tidy(s) && s.stale == {} && run !in s.logs
    ensures CaughtUp(s, run)
  {
    hide Fine, Accounted, Slice, ApplyAll;
    assert AtPrefix(s.db, s.logs, run, Reach(s, run));
  }

  lemma RebuiltIsCaughtUp(s: Store, order: seq<string>, run: string)
    requires Tidy(s) && s.stale == {} && Covers(order, s.logs) && run in s.logs
    requires RebuiltAll(s.logs, order) == Done(s.db)
    ensures CaughtUp(s, run)
  {
    RebuiltAllIsInStep(s.logs, order, run);
    assert Chained(s.logs[run]) && AtPrefix(s.db, s.logs, run, Reach(s, run));
    hide Fine, Accounted, Slice, ApplyAll, RebuiltAll, Chained, Idle;
    var i :| 0 <= i < |order| && order[i] == run;
    assert ApplyAll(EMPTY, s.logs[order[i]]).Done?;
    SameRowsIsIdle(s.logs[run], Reach(s, run));
  }

  /** A rebuild takes the tables to what it read, also backwards: one that read the trace before
      an event was written there, and commits after that event was applied, loses it. */
  lemma LateRebuildSetsBack(moves: seq<Move>, run: string, n: nat)
    requires run in PlayAll(NOTHING_STORED, moves).logs && n <= |PlayAll(NOTHING_STORED, moves).logs[run]|
    requires ApplyAll(EMPTY, PlayAll(NOTHING_STORED, moves).logs[run][..n]).Done?
    ensures var s' := Play(PlayAll(NOTHING_STORED, moves), RebuildsRun(run, n));
            && Reach(s', run) == n && run !in s'.stale
            && Done(Slice(s'.db, run)) == ApplyAll(EMPTY, s'.logs[run][..n])
  {
    var s := PlayAll(NOTHING_STORED, moves);
    MovesStayTidy(moves);
    hide PlayAll, Fine, Accounted, Slice, RebuiltRun;
    RebuildRunRepairs(s.db, s.logs, run, n, run + "'");
  }

  // ----- One append -----

  /** What is projected of an event already in the trace: by itself, by a rebuild of its run
      after a database error, or not at all; a ValueError then leaves `append`. */
  datatype Outcome = ByItself(db: Tables) | ByRebuild(db: Tables) | NotAtAll(raises: bool)

  function ProjectAppended(db: Tables, run: string, records: seq<Record>, applyWorks: bool, rebuildWorks: bool): Outcome
    requires records != []
  {
    var applied := if applyWorks then Apply(db, records[|records| - 1]) else Failed_(IntegrityFault);
    if applied.Done? then ByItself(applied.db)
    else if applied.fault == ValueFault then NotAtAll(true)
    else if !rebuildWorks then NotAtAll(false)
    else
      var rebuilt := RebuiltRun(db, run, records);
      if rebuilt.Done? then ByRebuild(rebuilt.db) else NotAtAll(rebuilt.fault == ValueFault)
  }

  /** Projecting an appended event is one of the moves, or none. */
  lemma ProjectingIsAMove(s: Store, run: string, applyWorks: bool, rebuildWorks: bool)
    requires run in s.logs && s.logs[run] != []
    ensures var n := |s.logs[run]|;
            match ProjectAppended(s.db, run, s.logs[run], applyWorks, rebuildWorks)
            case ByItself(db) => Play(s, Applies(run, n - 1)).db == db
            case ByRebuild(db) => Play(s, RebuildsRun(run, n)).db == db
            case NotAtAll(_) => true
  {
    hide Apply, RebuiltRun;
    assert s.logs[run][..|s.logs[run]|] == s.logs[run];
  }
}
