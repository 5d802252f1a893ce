/** From the trace file to the run: what recorders append is what replay reads. */
module StoredEvidence {
  import opened Texts
  import opened Entities
  import opened EvidenceLog
  import Replay
  import Agreement
  import CrashConsistency
  import Lifetimes
  import LifetimeProofs
  import Histories

  // ----- What was appended is what is read -----

  const NO_TRACE := System(Trace(false, [], [], 0, None), map[])

  predicate Opened(actions: seq<Action>, who: nat) {
    Opens(who) in actions
  }

  /** The append is by a recorder that is there, and for its own run. */
  predicate Takes(runId: string, earlier: seq<Action>, a: Action) {
    && a.Appends? && Opened(earlier, a.who) && a.lineSize > 0
    && runId != "" && RunOf(a.content) == runId
  }

  /** The events that any number of recorders append to a trace, in order. */
  function Appended(runId: string, actions: seq<Action>): seq<Event> {
    if actions == [] then []
    else
      var n := |actions| - 1;
      Appended(runId, actions[..n]) + (if Takes(runId, actions[..n], actions[n]) then [actions[n].content] else [])
  }

  predicate Holds(runId: string, s: System, events: seq<Event>) {
    && Trustworthy(s) && Contents(s.trace.records) == events
    && forall i | 0 <= i < |s.trace.records| :: RunOf(s.trace.records[i].content) == runId
  }

  lemma ContentsGrow(records: seq<Record>, r: Record)
    ensures Contents(records + [r]) == Contents(records) + [r.content]
  {
  }

  lemma ActHolds(runId: string, s: System, a: Action, events: seq<Event>, takes: bool)
    requires Holds(runId, s, events)
    requires takes <==> a.Appends? && a.who in s.caches && a.lineSize > 0 && runId != "" && RunOf(a.content) == runId
    ensures Holds(runId, Act(s, runId, a), if takes then events + [a.content] else events)
  {
    ActKeeps(s, runId, a);
    if a.Appends? && a.who in s.caches && a.lineSize > 0 {
      AppendAdds(s.trace, s.caches[a.who], runId, a.content, a.lineSize, a.mtime);
      hide Trustworthy, Append, Contents, WellKept, HonestCache;
      var w := Append(s.trace, s.caches[a.who], runId, a.content, a.lineSize, a.mtime);
      if takes {
        ContentsGrow(s.trace.records, w.record.value);
      }
    }
  }

  lemma {:induction false} AllAppendedAreHeld(runId: string, actions: seq<Action>)
    ensures var s := ActAll(NO_TRACE, runId, actions);
            && Holds(runId, s, Appended(runId, actions))
            && forall who: nat :: who in s.caches <==> Opened(actions, who)
  {
    if actions != [] {
      var n := |actions| - 1;
      var before := ActAll(NO_TRACE, runId, actions[..n]);
      AllAppendedAreHeld(runId, actions[..n]);
      assert actions == actions[..n] + [actions[n]];
      ActHolds(runId, before, actions[n], Appended(runId, actions[..n]), Takes(runId, actions[..n], actions[n]));
      hide Holds, Append;
    }
  }

  /** Reading the trace back gives exactly the events that were appended, by however many
      recorders and whatever became of the head file. */
  lemma AppendedReadsBack(runId: string, actions: seq<Action>)
    ensures ReadVerified(runId, ActAll(NO_TRACE, runId, actions).trace.records) == Some(Appended(runId, actions))
  {
    AllAppendedAreHeld(runId, actions);
    hide ActAll, Appended, Chained, Sequenced;
  }

  // ----- Replaying a run directory -----

  /** `replay_verified_run` on the lines of the trace file. */
  function ReplayVerifiedRun(runId: string, records: seq<Record>): Option<Replay.RunState> {
    var events := ReadVerified(runId, records);
    if events.None? then None else Replay.Replayed(runId, events.value)
  }

  lemma {:induction false} FoldedIsOwn(runId: string, log: seq<Event>)
    requires Replay.Fold(runId, log).Some?
    ensures forall e | e in log :: RunOf(e) == runId
    ensures log != [] ==> !Blank(runId)
  {
    if log != [] {
      var n := |log| - 1;
      FoldedIsOwn(runId, log[..n]);
      Replay.SessionEffect(runId, Replay.Fold(runId, log[..n]).value, log[n]);
      hide Replay.Step;
      assert log == log[..n] + [log[n]];
    }
  }

  /** Every event of every history is one of its run, so the recorders take them all. */
  lemma HistoryIsOwn(runId: string, history: seq<Lifetimes.Command>)
    ensures var log := Lifetimes.LogOf(Lifetimes.After(Lifetimes.Unborn(runId), history));
            && (forall e | e in log :: RunOf(e) == runId)
            && (log != [] ==> runId != "")
  {
    Histories.HistoryIntact(runId, history);
    hide Lifetimes.After, LifetimeProofs.Intact;
    IntactIsOwn(Lifetimes.After(Lifetimes.Unborn(runId), history));
  }

  lemma IntactIsOwn(w: Lifetimes.World)
    requires LifetimeProofs.Intact(w)
    ensures var log, runId := Lifetimes.LogOf(w), Lifetimes.RunIdOf(w);
            && (forall e | e in log :: RunOf(e) == runId)
            && (log != [] ==> runId != "")
  {
    if w.Open? {
      CrashConsistency.AgreedIsSound(w.live);
    }
    hide Replay.Fold, Agreement.Agreed, LifetimeProofs.OffersFit;
    var log, runId := Lifetimes.LogOf(w), Lifetimes.RunIdOf(w);
    if Replay.Fold(runId, log).Some? {
      FoldedIsOwn(runId, log);
    } else {
      var n := |log| - 1;
      FoldedIsOwn(runId, log[..n]);
      assert log == log[..n] + [log[n]];
    }
  }

  /** One recorder writing a log, line by line. */
  function Writing(log: seq<Event>): seq<Action> {
    [Opens(0)] + seq(|log|, i requires 0 <= i < |log| => Appends(0, log[i], 1, i))
  }

  lemma {:induction false} WritingAppends(runId: string, log: seq<Event>, n: nat)
    requires n <= |log| && (forall e | e in log :: RunOf(e) == runId) && (log != [] ==> runId != "")
    ensures Appended(runId, Writing(log)[..n + 1]) == log[..n]
  {
    var actions := Writing(log);
    if n == 0 {
      assert actions[..1] == [Opens(0)] && [Opens(0)][..0] == [];
      assert Appended(runId, []) == [];
    } else {
      WritingAppends(runId, log, n - 1);
      assert actions[..n + 1][..n] == actions[..n] && actions[..n + 1][n] == Appends(0, log[n - 1], 1, n - 1);
      assert actions[..n][0] == Opens(0);
      assert log[n - 1] in log;
      hide Writing;
      assert Takes(runId, actions[..n], actions[n]);
    }
  }

  /** The log of every history can be written, and replaying the run directory in which it was
      written, by whichever recorders, is replaying the log. */
  lemma DirectoryReplaysTheLog(runId: string, history: seq<Lifetimes.Command>, actions: seq<Action>)
    ensures var log := Lifetimes.LogOf(Lifetimes.After(Lifetimes.Unborn(runId), history));
            && Appended(runId, Writing(log)) == log
            && (Appended(runId, actions) == log ==>
                  ReplayVerifiedRun(runId, ActAll(NO_TRACE, runId, actions).trace.records) ==
                  Replay.Replayed(runId, log))
  {
    var log := Lifetimes.LogOf(Lifetimes.After(Lifetimes.Unborn(runId), history));
    HistoryIsOwn(runId, history);
    WritingAppends(runId, log, |log|);
    assert Writing(log)[..|log| + 1] == Writing(log) && log[..|log|] == log;
    AppendedReadsBack(runId, actions);
  }
}
