/** The session and tool call transition tables, and what their shape alone guarantees. */
module Lifecycle {

  datatype SessionStatus = Created | Running | WaitingApproval | Completed | Failed | Cancelled

  datatype CallStatus =
    | Requested
    | PolicyDenied
    | AwaitingApproval
    | Approved
    | SandboxDenied
    | Executing
    | Succeeded
    | CallFailed

  function SessionTargets(s: SessionStatus): set<SessionStatus> {
    match s
    case Created => {Running, Cancelled}
    case Running => {WaitingApproval, Completed, Failed, Cancelled}
    case WaitingApproval => {Running, Failed, Cancelled}
    case Completed => {}
    case Failed => {}
    case Cancelled => {}
  }

  function CallTargets(s: CallStatus): set<CallStatus> {
    match s
    case Requested => {PolicyDenied, AwaitingApproval, SandboxDenied, Executing, CallFailed}
    case PolicyDenied => {}
    case AwaitingApproval => {Approved, PolicyDenied, CallFailed}
    case Approved => {SandboxDenied, Executing, CallFailed}
    case SandboxDenied => {}
    case Executing => {Succeeded, CallFailed}
    case Succeeded => {}
    case CallFailed => {}
  }

  predicate SessionEdge(a: SessionStatus, b: SessionStatus) { b in SessionTargets(a) }

  predicate CallEdge(a: CallStatus, b: CallStatus) { b in CallTargets(a) }

  predicate SessionOver(s: SessionStatus) { s in {Completed, Failed, Cancelled} }

  predicate CallOver(s: CallStatus) { s in {PolicyDenied, SandboxDenied, Succeeded, CallFailed} }

  /** A status history the tool call table allows, from the request on. */
  predicate CallPath(h: seq<CallStatus>) {
    && (h != [] ==> h[0] == Requested)
    && forall i | 0 < i < |h| :: CallEdge(h[i - 1], h[i])
  }

  /** A status history the session table allows, from creation on. */
  predicate SessionPath(h: seq<SessionStatus>) {
    && (h != [] ==> h[0] == Created)
    && forall i | 0 < i < |h| :: SessionEdge(h[i - 1], h[i])
  }

  /** How far along a call is; every edge of the table goes up. */
  function Rank(s: CallStatus): nat {
    match s
    case Requested => 0
    case AwaitingApproval => 1
    case Approved => 2
    case Executing => 3
    case _ => 4
  }

  lemma {:induction false} PathClimbs(h: seq<CallStatus>, i: nat, j: nat)
    requires CallPath(h) && i < j < |h|
    ensures Rank(h[i]) < Rank(h[j])
    decreases j
  {
    assert CallEdge(h[j - 1], h[j]);
    if i < j - 1 {
      PathClimbs(h, i, j - 1);
    }
  }

  /** A call enters each status at most once, so it starts executing at most once. */
  lemma NoStatusTwice(h: seq<CallStatus>, i: nat, j: nat)
    requires CallPath(h) && i < |h| && j < |h| && h[i] == h[j]
    ensures i == j
  {
    if i < j {
      PathClimbs(h, i, j);
    } else if j < i {
      PathClimbs(h, j, i);
    }
  }

  /** A call that ever waited for approval and later executes was approved in between. */
  lemma WaitedThenApproved(h: seq<CallStatus>, i: nat, k: nat) returns (j: nat)
    requires CallPath(h) && i < |h| && k < |h|
    requires h[i] == AwaitingApproval && h[k] == Executing
    ensures i < j < k && h[j] == Approved
  {
    if k <= i {
      if k < i {
        PathClimbs(h, k, i);
      }
      assert false;
    }
    j := i + 1;
    assert CallEdge(h[i], h[j]);
    if j < k {
      PathClimbs(h, j, k);
    }
  }

  /** The ways a call can have come to where it is, and no others: it waited or not, was
      approved only if it waited and then always, ran only from there, and ended at once where
      it was refused, or by failing anywhere. */
  lemma WaysOfACall(h: seq<CallStatus>)
    requires CallPath(h) && h != []
    ensures h in {
      [Requested], [Requested, PolicyDenied], [Requested, SandboxDenied], [Requested, CallFailed],
      [Requested, Executing], [Requested, Executing, Succeeded], [Requested, Executing, CallFailed],
      [Requested, AwaitingApproval], [Requested, AwaitingApproval, PolicyDenied],
      [Requested, AwaitingApproval, CallFailed], [Requested, AwaitingApproval, Approved],
      [Requested, AwaitingApproval, Approved, SandboxDenied], [Requested, AwaitingApproval, Approved, CallFailed],
      [Requested, AwaitingApproval, Approved, Executing],
      [Requested, AwaitingApproval, Approved, Executing, Succeeded],
      [Requested, AwaitingApproval, Approved, Executing, CallFailed]}
  {
    if |h| > 5 {
      PathIsShort(h);
      assert false;
    }
    assert forall i | 0 < i < |h| :: CallEdge(h[i - 1], h[i]);
    if |h| == 1 {
      assert h == [h[0]];
    } else if |h| == 2 {
      assert CallEdge(h[0], h[1]) && h == [h[0], h[1]];
    } else if |h| == 3 {
      assert CallEdge(h[0], h[1]) && CallEdge(h[1], h[2]) && h == [h[0], h[1], h[2]];
    } else if |h| == 4 {
      assert CallEdge(h[0], h[1]) && CallEdge(h[1], h[2]) && CallEdge(h[2], h[3]) && h == [h[0], h[1], h[2], h[3]];
    } else {
      assert CallEdge(h[0], h[1]) && CallEdge(h[1], h[2]) && CallEdge(h[2], h[3]) && CallEdge(h[3], h[4]);
      assert h == [h[0], h[1], h[2], h[3], h[4]];
    }
  }

  lemma PathIsShort(h: seq<CallStatus>)
    requires CallPath(h)
    ensures |h| <= 5
  {
    if |h| > 5 {
      PathClimbs(h, 0, 1);
      PathClimbs(h, 1, 2);
      PathClimbs(h, 2, 3);
      PathClimbs(h, 3, 4);
      PathClimbs(h, 4, 5);
    }
  }

  /** A session is created once, completes only out of running, fails only once it has run, and
      stays where it ended. */
  lemma WaysOfASession(h: seq<SessionStatus>, i: nat)
    requires SessionPath(h) && i < |h|
    ensures h[i] == Created <==> i == 0
    ensures h[i] == Completed ==> i > 0 && h[i - 1] == Running
    ensures h[i] == Failed ==> i > 1 && h[i - 1] in {Running, WaitingApproval}
    ensures h[i] == WaitingApproval ==> i > 1 && h[i - 1] == Running
    ensures SessionOver(h[i]) ==> i == |h| - 1
  {
    if i > 0 {
      assert SessionEdge(h[i - 1], h[i]);
      assert i == 1 ==> h[i - 1] == Created;
    }
    if i + 1 < |h| {
      assert SessionEdge(h[i], h[i + 1]);
    }
  }
}
