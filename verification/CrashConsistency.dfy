/** Which prefixes of a recorded log replay accepts: a crash may cut it after any event. */
module CrashConsistency {
  import opened Texts
  import opened Lifecycle
  import opened Entities
  import opened Replay
  import opened Pipeline
  import opened Agreement

  /** The ids of a session's calls are the numbered ones. */
  predicate Ided(calls: map<string, SessionToolCall>) {
    forall id | id in calls ::
      calls[id].callId == id && 1 <= calls[id].sequence && id == CallId(calls[id].sequence)
  }

  /** What every log written by sessions, decisions and cancellations satisfies, wherever it
      is cut: it folds, its intents follow their requests, and its runs are licensed. */
  predicate Sound(runId: string, log: seq<Event>, runs: seq<nat>) {
    && Fold(runId, log).Some?
    && Paired(log) && Known(runId, log)
    && AllLicensed(runId, log, runs)
    && Ided(Fold(runId, log).value.calls)
  }

  lemma AgreedIsSound(l: Live)
    requires Agreed(l)
    ensures Sound(l.session.runId, l.log, l.runs)
  {
    hide Fold, Paired, Known, AllLicensed, CallId;
  }

  lemma SoundPrefix(runId: string, log: seq<Event>, runs: seq<nat>, n: nat, k: nat)
    requires Sound(runId, log, runs) && n <= |log| && k <= |runs|
    requires forall j | 0 <= j < k :: runs[j] < n
    ensures Sound(runId, log[..n], runs[..k])
  {
    hide Step, CallId;
    PrefixFolds(runId, log, n);
    var cut := log[..n];
    forall i | 0 <= i < n
      ensures cut[..i] == log[..i]
    {
    }
    forall j | 0 <= j < k
      ensures Licensed(runId, cut, runs[..k][j])
    {
      assert Licensed(runId, log, runs[j]);
    }
    assert Known(runId, cut);
    assert AllLicensed(runId, cut, runs[..k]);
  }

  // ----- Backed calls -----

  lemma {:induction false} OnlyTheLastIsUnbacked(runId: string, log: seq<Event>)
    requires Fold(runId, log).Some? && Paired(log) && Known(runId, log)
    ensures var st := Fold(runId, log).value;
            && st.arguments.Keys <= st.calls.Keys
            && (EndsInRequest(log) ==>
                  var id := log[|log| - 1].call.callId; id in st.calls && id !in st.arguments)
            && forall id | id in st.calls ::
                 Backed(st, id) || (EndsInRequest(log) && id == log[|log| - 1].call.callId)
  {
    if log != [] {
      var n := |log| - 1;
      var shorter, e := log[..n], log[n];
      forall i | 0 <= i < n
        ensures shorter[..i] == log[..i]
      {
      }
      assert Known(runId, shorter);
      OnlyTheLastIsUnbacked(runId, shorter);
      if EndsInRequest(shorter) {
        assert Records(log[n - 1].call, e);
      }
      UnbackedStep(runId, Fold(runId, shorter).value, e, EndsInRequest(shorter),
                   if EndsInRequest(shorter) then log[n - 1].call else if e.ToolCallRequested? then e.call else ANY);
    }
  }

  const ANY := SessionToolCall("", "", "", 0, "", Unbound(""), None, Requested, At(0), At(0))

  /** One event: the open call, if any, is closed by its intent. */
  lemma UnbackedStep(runId: string, st: RunState, e: Event, open: bool, last: SessionToolCall)
    requires Step(runId, st, e).Some?
    requires st.arguments.Keys <= st.calls.Keys
    requires open ==> Records(last, e) && last.callId in st.calls && last.callId !in st.arguments
    requires open ==> st.calls[last.callId].digest == last.digest
    requires forall id | id in st.calls :: Backed(st, id) || (open && id == last.callId)
    requires e.ToolIntent? ==> e.callId in st.calls
    ensures var st' := Step(runId, st, e).value;
            && st'.arguments.Keys <= st'.calls.Keys
            && (e.ToolCallRequested? ==> e.call.callId in st'.calls && e.call.callId !in st'.arguments)
            && forall id | id in st'.calls :: Backed(st', id) || (e.ToolCallRequested? && id == e.call.callId)
  {
    var st' := Step(runId, st, e).value;
    forall id | id in st'.calls && !(e.ToolCallRequested? && id == e.call.callId)
      ensures Backed(st', id)
    {
      assert id in st.calls;
      assert Backed(st, id) || (open && id == last.callId);
    }
  }

  // ----- Sessions and facts of a prefix -----

  predicate Creates(log: seq<Event>) {
    exists i | 0 <= i < |log| :: log[i].SessionCreated?
  }

  function FactsIn(log: seq<Event>): seq<Fact> {
    if log == [] then []
    else
      var e := log[|log| - 1];
      FactsIn(log[..|log| - 1]) + (if e.FactMapped? then e.facts else [])
  }

  lemma {:induction false} FoldCollects(runId: string, log: seq<Event>)
    requires Fold(runId, log).Some?
    ensures Fold(runId, log).value.session.Some? <==> Creates(log)
    ensures Fold(runId, log).value.facts == FactsIn(log)
  {
    if log != [] {
      var shorter, e := log[..|log| - 1], log[|log| - 1];
      FoldCollects(runId, shorter);
      SessionEffect(runId, Fold(runId, shorter).value, e);
      RecordEffect(runId, Fold(runId, shorter).value, e);
      hide Step, ValidSession, Blank;
      assert log == shorter + [e];
      if Creates(shorter) {
        var i :| 0 <= i < |shorter| && shorter[i].SessionCreated?;
        assert log[i].SessionCreated?;
      }
      if Creates(log) && !e.SessionCreated? {
        var i :| 0 <= i < |log| && log[i].SessionCreated?;
        assert shorter[i].SessionCreated?;
      }
    }
  }

  /** Replay accepts a sound log exactly if its session was created, it does not stop between
      a request and its intent, and every fact in it is readable. */
  lemma ReplayableIff(runId: string, log: seq<Event>, runs: seq<nat>)
    requires Sound(runId, log, runs)
    ensures Replayed(runId, log).Some? <==> Creates(log) && !EndsInRequest(log) && Readable(FactsIn(log))
  {
    hide Step, Fold, Paired, Known, AllLicensed, Ided;
    OnlyTheLastIsUnbacked(runId, log);
    FoldCollects(runId, log);
    if EndsInRequest(log) && Fold(runId, log).Some? {
      var id := log[|log| - 1].call.callId;
      assert !Backed(Fold(runId, log).value, id);
    }
  }

  /** A process may die after any event it recorded. What is then on disk is replayable,
      except before the session was created, between a request and its intent, or after an
      unreadable fact. */
  lemma CrashedLogReplays(l: Live, n: nat)
    requires Agreed(l) && n <= |l.log|
    ensures Replayed(l.session.runId, l.log[..n]).Some?
            <==> Creates(l.log[..n]) && !EndsInRequest(l.log[..n]) && Readable(FactsIn(l.log[..n]))
  {
    AgreedIsSound(l);
    SoundPrefix(l.session.runId, l.log, l.runs, n, 0);
    ReplayableIff(l.session.runId, l.log[..n], l.runs[..0]);
  }
}
