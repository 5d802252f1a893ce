# AgentTrust: a verified model of its evidence-sourced runs

AgentTrust records every governed agent run as an append-only, hash-linked log of events. Live
session objects, a SQL cache, human approvals and file backups all stem from that log, and
several processes work on one run one after the other: a session asks for an approval and
exits, another process decides it, a third resumes or cancels, and any of them may die. This
project models the log, the objects that write it and everything rebuilt from it, and proves
that they agree.

The files, in the order in which they build on each other:

- `Texts`, `Lifecycle`, `Entities`: text checks and call numbering, the transition tables, the
  records and the events that carry them.
- `Replay`, `ReplayConditions`, `ReplaySoundness`: rebuilding a run from its log, which logs are
  accepted, and what acceptance means for any log, whoever wrote it.
- `Pipeline`: one governed call as a function of the live session and of what policy, hooks,
  approver, sandbox, executor and fact mapper answer or raise. `GovernedSessions` holds the
  mutable session and the tool pipeline, proved equal to these functions.
- `Agreement`, `SessionAgreement`, `CrashConsistency`: live and replayed state are the same
  after every operation, and which prefixes of a log can be replayed.
- `Interleavings`: a decision that falls between two events of a session at work.
- `Lifetimes`, `LifetimeProofs`, `Histories`: a run as a state machine over sessions, decisions
  between and within their operations, resumptions, cancellations and crashes, and the promises
  that hold over every history.
  `ExecutionGate` says what it takes for the executor to run, `CallOutcomes` what becomes of a
  call, `Decisions` what stands after a decision, a cancellation or a resumption,
  `FinalAnswers` how a session begins and ends, `Resumptions` which stored runs have a future,
  and `Witnesses` gives concrete inputs for what one would not expect.
  `RuntimeApi` holds the methods that decide, cancel, resume and leave.
- `EvidenceLog`, `TraceRecorders`, `TailReader`, `Signing`: the hash chain, the recorders with
  their cached heads, the backward reader of the last line, and anchors. `StoredEvidence` joins
  the trace to the run: what recorders append is what replay reads.
- `Projection`, `ProjectionProofs`, `ProjectionSync`, `StateProjection`: the SQL cache.
- `Recovery`, `RecoveryProofs`, `RecoveryForced`, `RecoveryDryRuns`, `RecoveryLog`: backups,
  restore points and restoring; what a restore leaves, also a forced one; when a dry run tells
  what it will do; and reading restore points back from the log. `RunRecovery` does so for the log of every history.
- `ArgvMatcher`, `PolicyForm`, `PolicyDefaults`: the argv pattern matcher, the normal form of
  policies and packs, and what a policy means where it is silent.

The methods of a class are tied to specification functions by their `ensures`; the lemmas are
about these functions. A function that returns `None` stands for source code that raises.
Hashes, digests and signatures are ideal: free constructors, equal only to themselves.

Nine places where the code does not meet the plain claim one would make about it are stated as
lemmas with the exact condition, and with an input that shows it:

- a log cut between a request and its intent can never be replayed, every call has such a point,
  and the run is then over (`EveryCallCanTearTheLog`, `StoredLogReplays`, `DeadForGood`);
- a fact with a blank key, which the fact mapper reads from a line `=5`, makes the log
  unreadable (`BlankKeyBreaksReplay`; `ReplayIsLive` has the condition);
- a denial in time whose reason is `approval_expired` makes the log unreadable
  (`DecisionReplays`, `ReservedReasonBreaksReplay`);
- a run with a waiting call that was never submitted for approval cannot be resumed, although
  its log replays (`CanBeResumedIff`, `BlankReasonStrands`);
- a resumed call for which the policy no longer asks raises a lifecycle error and fails the
  session (`LifecycleErrorIff`, `AllowedByNowFailsTheSession`);
- an append raises, with its event in the trace, where the rows have no place for the event,
  because the tables have missed an earlier one (`AppendRaisesIff`, `MissedRequestRaisesNext`,
  `MissedWaitRaisesNext`);
- a rebuild from a trace read before an event, committed after that event was applied, takes its
  rows away again (`LateRebuildSetsBack`; `TablesEqualFullRebuild` has the condition);
- a second restore can go on undoing where somebody edited a file between two governed writes
  (`TwiceIsOnceIff`, `SecondRestoreGoesOn`);
- the dry run of an undo announces conflicts that the undo does not meet, once a path was given
  two different contents (`DryRunIsExactIff`, `DryRunMisjudgesRepeatedWrites`).

## Model

| member | source | states |
|---|---|---|
| Texts.CallIdInjective | src/agenttrust/domain/sessions.py:152-175 | the ids `call_001`, `call_002`, … of a session never repeat, also past three digits |
| Lifecycle.NoStatusTwice | src/agenttrust/domain/lifecycle.py:45-54 | on any path of the call table each status is entered at most once, so a call starts executing at most once |
| Lifecycle.WaitedThenApproved | src/agenttrust/domain/lifecycle.py:45-54 | on any path, a call that ever waited for approval and later executes was approved in between |
| Lifecycle.WaysOfACall | src/agenttrust/domain/lifecycle.py:45-54 | the sixteen status histories a call can have, and no others: it is approved only if it waited, runs only from `requested` or `approved`, and ends where it is refused, has run or fails |
| Lifecycle.WaysOfASession | src/agenttrust/domain/lifecycle.py:36-43 | a session is created once, completes only out of `running`, fails only once it has run, and stays where it ended |
| Entities.Decide | src/agenttrust/domain/approvals.py:135-168 | a decision succeeds exactly on a pending request, strictly before its expiry, with approver and reason given, and changes the verdict and nothing else |
| Entities.Expire | src/agenttrust/domain/approvals.py:141-147 | an expiry succeeds exactly on a pending request at or past its expiry, and denies it for the reserved reason and nothing else |
| Replay.ReplayEvents | src/agenttrust/adapters/evidence/replay.py:41-146 | the replay loop, with each check where the source makes it, computes the fold of the events and the two final checks |
| Replay.PrefixFolds | src/agenttrust/adapters/evidence/replay.py:56-129 | what was read from a prefix stays: calls only move up their table, a decided approval, arguments and facts never change |
| ReplayConditions.FoldsIff | src/agenttrust/adapters/evidence/replay.py:56-129 | the loop takes exactly the logs of which each event fits the ones before it, said of the events alone, and ends in the state they describe |
| ReplayConditions.ReplaysIff | src/agenttrust/adapters/evidence/replay.py:41-146 | replay accepts exactly these logs, if they create a session, record for each requested call the arguments of its digest, and hold readable facts only |
| ReplaySoundness.CallHistoriesArePaths | src/agenttrust/adapters/evidence/replay.py:68-86 | in every accepted log, the statuses recorded for a call are a path of the table, ending in the replayed status |
| ReplaySoundness.SessionHistoryIsPath | src/agenttrust/adapters/evidence/replay.py:56-67 | the same for the session |
| ReplaySoundness.ExecutingOnce | src/agenttrust/adapters/evidence/replay.py:79-86 | two `executing` events of an accepted log never concern the same call |
| ReplaySoundness.ApprovalsAreSound | src/agenttrust/adapters/evidence/replay.py:103-124 | in every accepted log an approval binds a requested call, its tool and its digest, is the only one of that call, and was granted strictly before its expiry |
| ReplaySoundness.OneRequestOneDecision | src/agenttrust/adapters/evidence/replay.py:103-124 | counted over the whole log: one request a call, one decision a request |
| ReplaySoundness.ApprovalBindsEveryIntent | src/agenttrust/adapters/evidence/replay.py:131-138 | every intent recorded for an approved call carries exactly the arguments the approval was given for |
| Pipeline.AllowedIff | src/agenttrust/permissions/approvals.py:28-83 | exactly when a call is allowed, and exactly when it is left waiting: by effect, mode, answer and hook |
| Agreement.RecordKeeps | src/agenttrust/application/governed_session.py:449-466 | every step of a call that the table allows keeps live and replayed state equal, with the session waiting exactly while a call does |
| Agreement.PerformKeeps | src/agenttrust/application/run_tool.py:162-223 | running the tool, binding the restore point and mapping facts, with any of these raising, keeps the agreement; the call is finished wherever the pipeline returns (how a raise leaves it is in ExecutionGate.CallIsGated) |
| Agreement.AdmitKeeps | src/agenttrust/application/run_tool.py:148-192 | sandbox, backup and execution keep the agreement; the executor runs only once the call is `executing` and every approval asked for it is granted |
| Agreement.PermitKeeps | src/agenttrust/application/run_tool.py:101-147 | approval and final permission keep the agreement; a refused call is `policy_denied`; a call resumed with the answer "deny" never runs the tool |
| SessionAgreement.RunToolKeeps | src/agenttrust/application/run_tool.py:77-223 | the whole pipeline keeps the agreement, for every answer and exception of policy, hooks, approver, sandbox, backup, executor, binding and facts |
| SessionAgreement.ExecuteKeeps | src/agenttrust/application/governed_session.py:126-198 | a fresh call keeps the agreement and never raises a lifecycle error; no other call is touched; and while the session goes on each call stays finished or waiting |
| SessionAgreement.ResumeKeeps | src/agenttrust/application/governed_session.py:332-383 | a resumed call keeps the agreement; the answer "deny" never reaches the executor, whatever the policy says now |
| SessionAgreement.LifecycleErrorIff | src/agenttrust/application/run_tool.py:101-192 | exactly when a resumed call raises a lifecycle error |
| Witnesses.AllowedByNowFailsTheSession | src/agenttrust/application/run_tool.py:162-187 | a concrete approved call whose tool the policy allows outright on resume: a lifecycle error, a failed session, nothing executed |
| SessionAgreement.StartKeeps | src/agenttrust/application/governed_session.py:94-100 | a started session agrees with its log |
| SessionAgreement.CloseKeeps | src/agenttrust/application/governed_session.py:274-279 | closing keeps the agreement, completes a session exactly if it runs and its completion is not blocked, and else changes nothing |
| SessionAgreement.TimeOutKeeps | src/agenttrust/application/governed_session.py:438-447 | timing out keeps the agreement and always ends the session |
| SessionAgreement.AnswerKeeps | src/agenttrust/application/governed_session.py:281-304 | a final answer keeps the agreement, and completes the session exactly if it is verified or the mode only warns |
| SessionAgreement.ReplayIsLive | src/agenttrust/adapters/evidence/replay.py:41-146 | replay of an agreed log gives the live session, facts and pending set, and accepts it exactly if its facts can be read |
| SessionAgreement.BlankKeyBreaksReplay | src/agenttrust/adapters/verification/mapper.py:57-63 | a fact with a blank key anywhere in a log makes replay raise |
| CrashConsistency.OnlyTheLastIsUnbacked | src/agenttrust/application/governed_session.py:145-156 | at every cut, at most the call whose request is the last event lacks its arguments |
| CrashConsistency.ReplayableIff | src/agenttrust/adapters/evidence/replay.py:131-146 | a cut log is replayable exactly if the session was created, it does not end in a request, and its facts can be read |
| CrashConsistency.CrashedLogReplays | src/agenttrust/adapters/evidence/replay.py:131-146 | the same for every prefix of the log of every live session |
| Interleavings.StepCommutes | src/agenttrust/adapters/evidence/replay.py:56-129 | no event but a decision reads or changes a verdict: replaying it before or after an approval was decided comes to the same |
| Interleavings.FoldCommutes | src/agenttrust/adapters/evidence/replay.py:56-129 | so a decision before any events that decide nothing gives the state without it, with that one approval decided |
| Interleavings.InsertedIsSound | src/agenttrust/interfaces/cli.py:728-773 | a sound log with a decision inserted at any such place is sound, and each run of the executor keeps its licence |
| GovernedSessions.GovernedSession.Execute | src/agenttrust/application/governed_session.py:102-198 | the session object after a call is what the specification gives, and agrees with its log |
| GovernedSessions.GovernedSession.ResumeToolCall | src/agenttrust/application/governed_session.py:332-383 | the session object after a resumed call |
| GovernedSessions.GovernedSession.RecordToolStatus | src/agenttrust/application/governed_session.py:449-458 | the status callback: call, pending set, session and log move together, or nothing does |
| GovernedSessions.GovernedSession.RecordFinalAnswer | src/agenttrust/application/governed_session.py:281-304 | the session object after a final answer, and when it is completed |
| GovernedSessions.GovernedSession.TimeOut | src/agenttrust/application/governed_session.py:443-447 | the session object after a timeout |
| GovernedSessions.RunToolUseCase.Execute | src/agenttrust/application/run_tool.py:77-223 | the pipeline over the mutable session |
| LifetimeProofs.RulingSound | src/agenttrust/interfaces/cli.py:728-773 | a decision keeps the log sound and changes nothing but approvals, unless it is a misnamed denial (what it records is in Decisions.DecisionStands) |
| Decisions.RulingRecords | src/agenttrust/interfaces/cli.py:728-773 | exactly when a decision is recorded: the log replays, the request is there and pending, somebody with a name gives a reason, and it does not run out in between; and the events, with the notice of an expiry |
| Decisions.DecisionStands | src/agenttrust/interfaces/cli.py:752-771 | over every history, the verdict that then stands: the one given, by that approver for that reason, or for an overdue request the denial for the reserved reason, whatever was asked; nothing else changes |
| LifetimeProofs.CancelSound | src/agenttrust/interfaces/python_api.py:633-674 | after a cancellation the session is cancelled, no call waits and no approval is pending; one that raises on the way changes approvals only (what stands then is in Decisions.CancelStands) |
| Decisions.DenyPendingDoes | src/agenttrust/interfaces/python_api.py:649-668 | the approvals loop goes to the first pending approval that cannot be denied in its turn; each one before that is denied by the actor, for the reserved reason if it has run out and else as `session_cancelled`, at the time of its turn |
| Decisions.CancellingDoes | src/agenttrust/interfaces/python_api.py:633-674 | exactly when a cancellation goes through, and what stands then: each pending approval denied, each waiting call `policy_denied`, the session cancelled, and nothing else changed |
| Decisions.CancelStands | src/agenttrust/interfaces/python_api.py:633-674 | the same between the replayed states of every history |
| LifetimeProofs.RestoredAgrees | src/agenttrust/interfaces/python_api.py:504-621 | the session object rebuilt by a resume agrees with the log, and every waiting call it offers is what the log says about it |
| LifetimeProofs.MeanwhileIntact | src/agenttrust/interfaces/cli.py:728-773 | a decision taken at any point inside an operation of a session without the run lock, in the middle of the events of a call too, keeps the run intact, the live object included |
| LifetimeProofs.NextIntact | src/agenttrust/interfaces/python_api.py:311-674 | every command, a decision within it at any event, and a crash within it after any event, keep the run intact and only extend the log |
| Histories.HistoryIntact | src/agenttrust/interfaces/python_api.py:311-674 | over every history, with decisions between commands and within them, the run is intact |
| Histories.LogOnlyGrows | src/agenttrust/adapters/evidence/jsonl_store.py:59-73 | an earlier log is a prefix of every later one |
| Histories.ExecutesAtMostOnce | src/agenttrust/application/run_tool.py:162-203 | over every history of processes deciding, also while a call is under way, resuming, cancelling and crashing, the executor runs at most once for a call id, each time after an `executing` event |
| Histories.RunsOnlyWhatWasGranted | src/agenttrust/application/run_tool.py:101-192 | whenever the executor runs, its call is `executing`, and each approval that was ever requested for it has been granted in time |
| ExecutionGate.CallIsGated | src/agenttrust/application/run_tool.py:77-223 | the executor runs exactly if policy and approver, hook, sandbox and backup all let the call through, and then once; a port that raises leaves the call in exactly the status given by LeftBy |
| ExecutionGate.UnfinishedIff | src/agenttrust/application/run_tool.py:148-223 | a raise leaves a call unfinished exactly if it comes before the executor has run, or from binding the restore point |
| CallOutcomes.CallEnds | src/agenttrust/application/run_tool.py:77-223 | for every answer and exception of the ports: the status the call is left in, everything it writes, in order, the final effect, the decision and the facts handed back, and exactly when a port or the lifecycle raises |
| CallOutcomes.FateIff | src/agenttrust/application/run_tool.py:101-223 | a call that returns is `policy_denied` exactly if policy, approver or hook refuse, waits exactly if nobody has answered, is `sandbox_denied` exactly if it is let through and the sandbox says no, and `succeeded` or `failed` exactly by its result |
| CallOutcomes.OneOfThree | src/agenttrust/permissions/approvals.py:28-83 | once policy and hook, and the prompt if there is one, have answered, a call is refused, left open or let through, and only one of these |
| CallOutcomes.ExecuteEnds | src/agenttrust/application/governed_session.py:126-198 | a fresh call: its replayed status, the status of the session, pending set, facts and trail; an approval request exactly if the call is left open and one can be made of it, bound to the call and its digest, and running out after the lifetime of the policy |
| CallOutcomes.ResumeEnds | src/agenttrust/application/governed_session.py:332-383 | the same for a resumed call; a lifecycle error fails the session |
| ExecutionGate.NextRuns | src/agenttrust/application/run_tool.py:77-223 | every command runs the executor at most once, and exactly if it takes up a permitted call; one that crashes may not get there |
| ExecutionGate.EveryRunWasPermitted | src/agenttrust/application/run_tool.py:77-223 | over every history, each run of the executor was started by one command that everything let through; a policy, hook, sandbox or prompt that refuses never reaches it |
| ExecutionGate.RunsAreThePermitted | src/agenttrust/application/run_tool.py:77-223 | without crashes the executor runs once for every permitted call, and for nothing else |
| ExecutionGate.RunsOnlyGrow | src/agenttrust/application/run_tool.py:162-203 | over every history no run of the executor is undone or moved by a later command |
| ExecutionGate.WaitedRunsWereApproved | src/agenttrust/domain/lifecycle.py:45-54 | over every history, up to each run of the executor the log shows a path of the call table ending in `executing`, with `approved` on it if the call ever waited |
| Histories.IdsAreIssuedOnce | src/agenttrust/interfaces/python_api.py:575-595 | no call id is issued twice, by one session object or several |
| Histories.LiveIsReplayed | src/agenttrust/adapters/evidence/replay.py:41-146 | at every point of every history, an open session is what replay rebuilds, whatever was decided while it was at work |
| Histories.StoredLogReplays | src/agenttrust/adapters/evidence/replay.py:41-146 | exactly when the log left between processes can be replayed |
| Histories.EveryCallCanTearTheLog | src/agenttrust/application/governed_session.py:145-156 | a crash right after any call's request leaves a log that replay rejects |
| Resumptions.DeadForGood | src/agenttrust/interfaces/python_api.py:514-674 | a run whose log replay rejects is over: no history of commands changes it |
| Histories.DecisionReplays | src/agenttrust/adapters/evidence/replay.py:228-248 | a decision leaves the log replayable unless it is a denial in time giving the reason reserved for expiries |
| Witnesses.ReservedReasonBreaksReplay | src/agenttrust/adapters/evidence/replay.py:244-246 | a concrete log that replays, and the denial in time that makes replay reject it |
| Histories.HandedOver | src/agenttrust/interfaces/python_api.py:504-621 | the object a resume builds holds the session, facts and waiting calls the leaving one held, whatever was decided in between |
| Decisions.ResumesIff | src/agenttrust/interfaces/python_api.py:504-621 | over every history, exactly when a resume builds a session: it waits, each waiting call was submitted, and the request of the one to take up is decided and has not run out; and what the object holds |
| Decisions.TakesUpIff | src/agenttrust/interfaces/python_api.py:174-203 | a waiting call whose request is pending or has run out is not taken up |
| Decisions.VerdictIsTheAnswer | src/agenttrust/interfaces/python_api.py:189-203 | one that is taken up goes through the pipeline with the recorded verdict for its answer, so that a denied one never runs; it stays on offer exactly if the pipeline raises |
| Resumptions.CanBeResumedIff | src/agenttrust/interfaces/python_api.py:504-560 | exactly which stored runs can still be resumed, short of a crash: the session waits, for at least one call, and every waiting call was submitted for approval |
| Resumptions.BlankReasonStrands | src/agenttrust/application/governed_session.py:179-189 | a decision to ask without a reason leaves the call waiting with no request, and so the run without a future |
| Histories.CompletedMeansDone | src/agenttrust/application/governed_session.py:274-304 | in a history without crashes a completed session has finished every call, and an unfinished one has each call finished or waiting |
| FinalAnswers.BeginsIff | src/agenttrust/interfaces/python_api.py:125-141 | exactly when a run begins, and the session, log and memory it begins with |
| FinalAnswers.AnswerLeaves | src/agenttrust/application/governed_session.py:281-304 | an answer is taken exactly while the session runs; it completes the session or blocks its completion, and what it writes |
| FinalAnswers.LeaveStatus | src/agenttrust/interfaces/python_api.py:142-157 | the status in which each of the three ways of leaving leaves a session, and that one which is over is recorded as completed |
| FinalAnswers.BlockedIsSentBack | src/agenttrust/application/governed_session.py:281-304 | over every history, completion is blocked exactly if the last answer the session object recorded was not verified, in a mode other than warn |
| FinalAnswers.LeavingEnds | src/agenttrust/interfaces/python_api.py:142-157 | over every history, the replayed status after leaving: completed only if the session runs and its last answer was not sent back, failed after an exception or a timeout, else as it was |
| RuntimeApi.DecideApprovalLocked | src/agenttrust/interfaces/cli.py:704-773 | what a decision appends: nothing if the approval is decided, has changed since it was read, or the rebuild of the tables raises, and else what the specification says |
| RuntimeApi.CancelLocked | src/agenttrust/interfaces/python_api.py:633-674 | what a cancellation appends, also where it raises on the way or the rebuild of the tables does |
| RuntimeApi.ResumeLocked | src/agenttrust/interfaces/python_api.py:504-621 | a resume builds a session object exactly where the specification does for the chosen call and the snapshot, tools and rebuild are in order; which object; and else it appends nothing |
| RuntimeApi.CheckResumable | src/agenttrust/interfaces/python_api.py:514-553 | for a given call, the checks on the replayed state pass exactly if every waiting call has an approval and the given one is decided and not expired |
| RuntimeApi.ChooseCall | src/agenttrust/interfaces/python_api.py:533-547 | without a name, a resume takes the only waiting call, or the only one that is decided and not expired, and raises otherwise |
| RuntimeApi.AgentTrustSession.ResumePendingApproval | src/agenttrust/interfaces/python_api.py:174-203 | the call named, or the only pending one, is taken up as specified, and is dropped from the pending maps unless the pipeline raises |
| RuntimeApi.AgentTrustSession.Exit | src/agenttrust/interfaces/python_api.py:142-157 | leaving the context, with or without an exception or a timeout |
| EvidenceLog.VerifyEvents | src/agenttrust/adapters/evidence/jsonl_store.py:183-194 | the scan accepts exactly the valid chains, gives their count and head, and else names the first fault |
| EvidenceLog.HeadDeterminesLog | src/agenttrust/adapters/evidence/jsonl_store.py:183-194 | two valid logs with the same head hash are equal |
| EvidenceLog.HashesAreDistinct | src/agenttrust/adapters/evidence/jsonl_store.py:332-335 | no two events of a valid chain have the same hash |
| EvidenceLog.LoadedHeadIsScanned | src/agenttrust/adapters/evidence/jsonl_store.py:108-147 | with a cache of any age and any head file, the loaded head is the one a full scan gives |
| EvidenceLog.AppendAdds | src/agenttrust/adapters/evidence/jsonl_store.py:59-106 | an append is refused only for another run, and else adds one event, numbered by its position and linked to the head |
| EvidenceLog.AppendKeeps | src/agenttrust/adapters/evidence/jsonl_store.py:59-73 | the trace stays a valid, numbered chain and the appender's cache right |
| EvidenceLog.EveryInterleavingIsValid | src/agenttrust/adapters/evidence/jsonl_store.py:35-147 | the same over every interleaving of any number of recorders, and whoever appends next uses the head of a full scan |
| StoredEvidence.AppendedReadsBack | src/agenttrust/adapters/evidence/jsonl_store.py:197-208 | reading a trace back gives exactly the events its recorders appended, in order, however many recorders and whatever became of the head file |
| StoredEvidence.DirectoryReplaysTheLog | src/agenttrust/adapters/evidence/replay.py:33-38 | the log of every history can be written by a recorder, and replaying the run directory it was written to is replaying that log |
| TraceRecorders.TraceRecorder.LoadVerifiedHead | src/agenttrust/adapters/evidence/jsonl_store.py:108-137 | the recorder's load over the mutable files and cache |
| TraceRecorders.TraceRecorder.Append | src/agenttrust/adapters/evidence/jsonl_store.py:59-73 | the recorder's append over the mutable files and cache |
| TailReader.ReadLastLine | src/agenttrust/adapters/evidence/jsonl_store.py:260-280 | the chunked backward reader finds the last line of the whole file, for every content and chunk size, and none exactly if there is none |
| TailReader.LastLineIsUnique | src/agenttrust/adapters/evidence/jsonl_store.py:260-280 | a file has one last line |
| TailReader.TailLineIsLast | src/agenttrust/adapters/evidence/jsonl_store.py:260-280 | the last line the reader promises is the one that cutting off trailing line breaks, and then all but the last LF-separated part, gives |
| TailReader.TailAgreesIff | src/agenttrust/adapters/evidence/jsonl_store.py:164-174 | the backward reader and a full read agree on the last line exactly if there is none, or it is not blank and holds no CR |
| Signing.SignVerifiedTrace | src/agenttrust/adapters/evidence/signing.py:67-108 | an anchor is made exactly for a valid trace, with a passphrase and an Ed25519 key, over its run, count and head |
| Signing.ValidAnchorsPinTheTrace | src/agenttrust/adapters/evidence/signing.py:111-151 | whoever made it, an anchor is valid for a trace exactly if the checking key signed that very trace, and then for no other one |
| Signing.AnchorPinsTheTrace | src/agenttrust/adapters/evidence/signing.py:111-151 | an anchor made over one trace is valid for a trace exactly if it is that trace |
| Signing.AppendsInvalidateAnchors | src/agenttrust/adapters/evidence/signing.py:141-151 | every later append is reported as a changed head |
| Projection.ApplyIsLocal | src/agenttrust/adapters/evidence/sqlite_state.py:112-145 | applying an event depends on, and changes, the rows of its own run only |
| ProjectionProofs.ProjectionMirrorsReplay | src/agenttrust/adapters/evidence/sqlite_state.py:192-357 | every valid chain that replay folds is projected without a fault, and its rows are the replayed session, calls and approvals |
| ProjectionSync.RebuildRunRepairs | src/agenttrust/adapters/evidence/sqlite_state.py:83-101 | rebuilding one run gives it the rows of its trace, whatever rows it had, and leaves every other run |
| ProjectionSync.RebuiltAllIsInStep | src/agenttrust/adapters/evidence/sqlite_state.py:54-81 | a full rebuild succeeds exactly if each trace can be projected, in any order of the runs |
| ProjectionSync.AppliedAgain | src/agenttrust/adapters/evidence/sqlite_state.py:112-145 | de-duplication: an event the rows already stand for changes nothing when it is applied again, or late, after a rebuild has brought it |
| ProjectionSync.MovesStayTidy | src/agenttrust/adapters/evidence/projecting_recorder.py:26-36 | over every interleaving of appends, of `apply_event` calls in any order, late or repeated, and of rebuilds of one run or all, from whatever they had read: each run of which nothing was applied out of turn has exactly the rows of the events counted for it |
| ProjectionSync.TablesEqualFullRebuild | src/agenttrust/adapters/evidence/sqlite_state.py:48-145 | and, with no run out of turn, the tables are those of a full rebuild exactly if no trace has events to project beyond those counted |
| ProjectionSync.LateRebuildSetsBack | src/agenttrust/adapters/evidence/sqlite_state.py:83-101 | a rebuild that read a trace before an event and commits after it was applied takes the tables back to what it had read |
| ProjectionSync.ProjectingIsAMove | src/agenttrust/adapters/evidence/projecting_recorder.py:26-36 | what an append does to the tables, once its event is in the trace, is one of these moves, or nothing |
| StateProjection.TakenIff | src/agenttrust/adapters/evidence/sqlite_state.py:192-357 | for an event that replay accepts and the tables have not seen, the handler raises exactly if its row is missing, already there, has no edge to the new status, or holds another digest or a decision |
| StateProjection.AppendRaisesIff | src/agenttrust/adapters/evidence/projecting_recorder.py:26-36 | an append of an event that replay accepts raises exactly if the database takes it, no rebuild has brought it already, and the rows have no place for it; and only for a run left behind |
| StateProjection.AppendProjects | src/agenttrust/adapters/evidence/projecting_recorder.py:26-36 | what an append does to the tables in every case: the event by itself, a rebuild exactly where the database fails or refuses the row, or nothing; and when all rows of the trace are there afterwards |
| StateProjection.MissedRequestRaisesNext | src/agenttrust/adapters/evidence/sqlite_state.py:272-304 | one locked database is enough: the request misses the tables, and the append of the call's next status raises, with its event in the trace |
| StateProjection.MissedWaitRaisesNext | src/agenttrust/adapters/evidence/sqlite_state.py:272-304 | the same with the row there but behind: the wait misses the tables, and the append of the approval raises |
| StateProjection.SQLiteStateProjection.ApplyWithin | src/agenttrust/adapters/evidence/sqlite_state.py:112-145 | one event applied to the mutable tables, or a fault and no change |
| StateProjection.SQLiteStateProjection.RebuildRun | src/agenttrust/adapters/evidence/sqlite_state.py:83-101 | the transaction of a run's rebuild: all of it or, on a fault, none |
| StateProjection.SQLiteStateProjection.Rebuild | src/agenttrust/adapters/evidence/sqlite_state.py:54-81 | the same for the full rebuild |
| StateProjection.ProjectingTraceRecorder.Append | src/agenttrust/adapters/evidence/projecting_recorder.py:26-36 | log first, then the projection, with the repair by rebuild; which tables result, and when it raises |
| Recovery.Workspace.WriteFile | src/agenttrust/adapters/evidence/recovery.py:67-131 | a call of the write tool, whatever it leaves and reports: a restore point exactly for an ok result whose digest is that of the file inside the project, and the disk after it |
| Recovery.Workspace.Restore | src/agenttrust/adapters/evidence/recovery.py:168-235 | the restore loop is the fold over the restore points in reverse, with one event an action; a dry run changes no file |
| RecoveryProofs.UnrecordedIsUntouched | src/agenttrust/adapters/evidence/recovery.py:213-216 | for any restore points on any disk, an unforced restore never touches a file whose content no restore point of it recorded |
| RecoveryProofs.RestoreIsUndoing | src/agenttrust/adapters/evidence/recovery.py:180-235 | with arbitrary edits during the run and since, an unforced restore leaves in each path exactly its content undone: each governed write that put it there, the last first, gives way to what was there before |
| RecoveryProofs.UndoneIsTheStart | src/agenttrust/adapters/evidence/recovery.py:180-235 | where nobody else edited the path during the run, that is its content before the run if the run wrote what it holds, and else what it holds |
| RecoveryProofs.RestoreUndoesTheRun | src/agenttrust/adapters/evidence/recovery.py:157-235 | without other edits, a restore returns every file to its content before the run, repeated writes and created files included |
| RecoveryForced.PointIsJudged | src/agenttrust/adapters/evidence/recovery.py:180-235 | the verdict on one restore point, as conditions on disk, digests, selection and force, each reason exactly when; and what is done to its path, and to no other |
| RecoveryForced.EventSaysWhatWasDone | src/agenttrust/adapters/evidence/recovery.py:195-235 | which of the four events is recorded for a restore point |
| RecoveryForced.ListsTheChosen | src/agenttrust/adapters/evidence/recovery.py:180-194 | every restore lists exactly the selected restore points, the latest first |
| RecoveryForced.UnrestorableIsUntouched | src/agenttrust/adapters/evidence/recovery.py:182-198 | a path that is not selected, or outside the project, is never touched |
| RecoveryForced.ForcedRestoreRewinds | src/agenttrust/adapters/evidence/recovery.py:219-235 | a forced restore, whatever stands in the files: each path goes back to its content before the first governed write to it, and no restore point is skipped |
| RecoveryForced.ForcedRestoreOfARun | src/agenttrust/adapters/evidence/recovery.py:157-235 | the same for the disk a run leaves, with any edits in between and since |
| RecoveryProofs.RestoringTwiceIsRestoringOnce | src/agenttrust/adapters/evidence/recovery.py:157-235 | without edits between the governed writes, a second restore changes nothing, whatever the files held before the first |
| RecoveryProofs.UndoneByDigest | src/agenttrust/adapters/evidence/recovery.py:180-235 | what undoing makes of a content a path may hold can be read from the digests in the restore points |
| RecoveryProofs.TwiceIsOnceIff | src/agenttrust/adapters/evidence/recovery.py:157-235 | exactly for which runs a second restore never changes anything: those whose restore points settle, which their digests show |
| RecoveryProofs.SecondRestoreGoesOn | src/agenttrust/adapters/evidence/recovery.py:213-227 | with an edit between two governed writes it can: the first restore leaves one content, the second another |
| RecoveryDryRuns.DryRunListsTheSame | src/agenttrust/adapters/evidence/recovery.py:180-235 | a dry run lists the actions of an apply if no path has two restore points |
| RecoveryDryRuns.DryRunMisjudgesRepeatedWrites | src/agenttrust/adapters/evidence/recovery.py:217-227 | with two writes to one path it does not |
| RecoveryDryRuns.DryRunIsExactIff | src/agenttrust/adapters/evidence/recovery.py:180-235 | the dry run of an undo lists what the undo does exactly if no path was given two different contents |
| RecoveryLog.ReadCheckpoints | src/agenttrust/adapters/evidence/recovery.py:238-285 | the two passes over the log accept exactly the logs whose ok results carry digests and whose restore points are well-formed and bound to them |
| RecoveryLog.LogGivesThePoints | src/agenttrust/adapters/evidence/recovery.py:238-258 | reading a run's log back gives its restore points in order, exactly if every other ok result carries an output digest too |
| RecoveryLog.RestoreFromTheLog | src/agenttrust/adapters/evidence/recovery.py:168-258 | end to end: the log can be read exactly if every other ok result carries an output digest, and restoring what is then read returns every file to its content before the run |
| RunRecovery.BindingIsGenuine | src/agenttrust/adapters/evidence/recovery.py:99-131 | whatever the recovery adapter binds to a result that shows a digest is well-formed, of this run and call, and for that digest |
| RunRecovery.RunToolBinds | src/agenttrust/application/run_tool.py:162-223 | the pipeline, for a call without a result so far, keeps each result the first of a call that was executing and each restore point bound to a result before it, and adds exactly the restore point bound for this call |
| RunRecovery.NextBinds | src/agenttrust/application/run_tool.py:196-215 | every command, with decisions inside it or a crash after any event, keeps each restore point bound to a result before it, and unless it crashes adds exactly its own |
| RunRecovery.HistoryIsReadable | src/agenttrust/adapters/evidence/recovery.py:238-285 | if results carry digests and the adapter binds what it makes, the restore points of every history can be read back from its log; without crashes they are exactly those its commands left, in order |
| RunRecovery.RestoreUndoesTheHistory | src/agenttrust/adapters/evidence/recovery.py:168-258 | and if these are the restore points of its writes, restoring them undoes the run |
| ArgvMatcher.NormalizedArgv | src/agenttrust/domain/policy.py:102-109 | when an argv argument is usable, and its tokens in normal form |
| ArgvMatcher.BaseNameIsASuffix | src/agenttrust/domain/policy.py:107-108 | the program's name is what follows the last slash, or everything |
| ArgvMatcher.DirectoryDoesNotMatter | src/agenttrust/domain/policy.py:107-109 | a directory before the program, with either separator, makes no difference to a rule |
| ArgvMatcher.MatchesIsMembership | src/agenttrust/domain/policy.py:117-127 | at every pair of positions the recursive matcher decides membership in the concatenation of the token languages |
| ArgvMatcher.ArgvMatchesIffInLanguage | src/agenttrust/domain/policy.py:112-129 | so a pattern matches exactly the commands in its language |
| ArgvMatcher.MatchesIsTheTable | src/agenttrust/domain/policy.py:117-127 | the matcher, which tries every continuation after a `**`, decides what a table filled cell by cell from its neighbours does |
| ArgvMatcher.ArgvMatchesSequence | src/agenttrust/domain/policy.py:112-129 | a pattern in two parts matches exactly the commands that fall into two matching parts |
| PolicyForm.RuleReadsBack | src/agenttrust/domain/policy.py:33-99 | every rule in normal form, printed, reads back to itself |
| PolicyForm.ReadPolicyIsNormal | src/agenttrust/domain/policy.py:194-232 | whatever document is read, the policy has valid effects, modes, version and lifetime, non-empty patterns and denying hooks |
| PolicyForm.PolicyReadsBack | src/agenttrust/domain/policy.py:194-248 | every such policy, printed, reads back to itself |
| PolicyForm.NormalFormIsFixed | src/agenttrust/domain/policy.py:194-248 | for every document that is accepted, the printed form reads back to the same policy |
| PolicyForm.NormalFormIsInjective | src/agenttrust/domain/policy.py:234-248 | different policies have different printed forms |
| PolicyDefaults.RuleDefaults | src/agenttrust/domain/policy.py:33-55 | leaving an entry of a rule out is writing its default; a rule that names no effect denies |
| PolicyDefaults.BareRule | src/agenttrust/domain/policy.py:33-55 | a rule needs a tool, and nothing else |
| PolicyDefaults.RuleTexts | src/agenttrust/domain/policy.py:33-55 | a value that is no text counts as the text it prints as |
| PolicyDefaults.RuleLists | src/agenttrust/domain/policy.py:33-55 | what counts as a list of paths or patterns: a list, a text by characters, a mapping by keys, any empty value, and nothing else |
| PolicyDefaults.HookDefaults | src/agenttrust/domain/policy.py:146-161 | the same for hooks, whose tool and path may stand under `when` |
| PolicyDefaults.PolicyDefaults | src/agenttrust/domain/policy.py:193-232 | the same for policies and their sections |
| PolicyDefaults.EmptyPolicy | src/agenttrust/domain/policy.py:182-232 | the empty document is a policy: no rules and no hooks, warnings for unverified answers, an hour for approvals |
| PolicyForm.LoadsExactlyGenuinePacks | src/agenttrust/adapters/policy/pack.py:64-100 | a document loads as a pack exactly if it is the document of a pack that export can produce, up to further entries beside name and version |
| PolicyForm.ExportLoadsBack | src/agenttrust/adapters/policy/pack.py:43-100 | every exported pack loads back to the same name, version, policy and digest |

## Left out

- The async twins of execute, resume and the session: they repeat the sync pipeline.
- Tools, subprocesses, MCP, the command line, reports and telemetry: what a tool does is an answer of the executor.
- SHA-256, canonical JSON, Ed25519 and random ids: hashes, digests and signatures are ideal, and an approval id is never drawn twice, within a run or between runs.
- Policy precedence, hooks, the sandbox, the fact mapper, the grounding check and redaction: their answers are arbitrary, including exceptions.
- Writes that tear a line, and edits of the trace that bypass the recorders but keep size and time of change.
- The SQL engine: tables are maps, a transaction is all or nothing, and a database error is an input.
- Two ISO texts for one instant are one `Stamp`; a text that does not parse is `Garbled`.
- Error messages: every exception of replay, recovery and policy reading is the one result `None`.
- The order in which replay returns tool calls, and in which loops go through a dictionary: a cancellation takes any order of the keys, a rebuild any order of the runs.
- A session opened by `session()` holds no run lock. The model lets an approval be decided beside it at any event; resumes, cancels and denials misnamed `approval_expired` come only once its context has exited.
- The run lock itself (depth counting and the retry loop): it would only add easy members.
- Re-entrant calls from a tool handler, and threads sharing one session.
- How the policy snapshot and the tools of a resume are checked: they are in order or not, as given. Tools are registered after `run_resumed` is recorded; one that raises then leaves the log a crash of the resume would.
- Evidence that raises in the middle of a call: in the session and its pipeline an append always succeeds. When one of the projecting recorder raises is stated by itself (`AppendRaisesIff`).
- Restore points bound for another run than the one they are made in: the adapter binds none, and the lemmas about the execution gate assume it.
- Whether completion is blocked is not persisted, so it starts anew with each session object, as in the code (`ResumesIff`).
- Events of one log line with a missing or mistyped field are one constructor `Malformed`; normalizing events older than the v1 envelope is modelled for their missing sequence only.
- Path resolution: which paths lie inside the project, and which a restore selects, are given predicates. A restore point holds the name of its backup, not a path.
- The backup manifest and the approval journal, which nothing reads back here.
- YAML and JSON text: policies and packs are read from parsed documents, and `str` of values that are no text is arbitrary.
- At which event replay notices an unreadable fact: the specification checks facts and digests over the whole log, the method where the source does.
- DryRunListsTheSame: on arbitrary files, one direction only; the exact condition is given for files nobody else has changed.
- RestoreUndoesTheRun: call ids are distinct, as issued by one run, and nobody but the run changed the files; what is left after outside edits is RestoreIsUndoing. What a forced one leaves is ForcedRestoreRewinds.
- RestoringTwiceIsRestoringOnce: no outside edit between governed writes; TwiceIsOnceIff has the exact condition.
- CanBeResumedIff: histories without crashes from here on; a cancellation that dies halfway can refuse the call that was never submitted and leave another one to be resumed.
