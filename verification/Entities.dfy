/** Sessions, tool calls, approvals, facts, and the evidence events that carry them. */
module Entities {
  import opened Texts
  import opened Lifecycle

  newtype Byte = x: int | 0 <= x < 256

  datatype Json =
    | JNull
    | JBool(flag: bool)
    | JInt(number: int)
    | JText(text: string)
    | JList(items: seq<Json>)
    | JObject(fields: map<string, Json>)

  type Arguments = map<string, Json>

  /** A SHA-256 text, idealised: the digest of some arguments is equal only to itself;
      `Unbound` is any other text an event may carry in its place. */
  datatype Digest = OfArguments(arguments: Arguments) | Unbound(text: string)

  /** The same for file contents. */
  datatype ContentDigest = OfBytes(content: seq<Byte>) | OtherDigest(text: string)

  /** A timestamp field: the ISO text of an instant with a zone, or a text that is none. */
  datatype Stamp = At(instant: int) | Garbled(text: string)

  predicate StampText(t: Stamp) { t.Garbled? ==> !Blank(t.text) }

  predicate DigestText(d: Digest) { d.Unbound? ==> !Blank(d.text) }

  datatype AgentSession = AgentSession(
    runId: string,
    actorId: string,
    sessionId: string,
    agentId: Option<string>,
    policyVersion: Option<string>,
    status: SessionStatus,
    createdAt: Stamp,
    updatedAt: Stamp)

  predicate ValidSession(s: AgentSession) {
    && !Blank(s.runId) && !Blank(s.actorId) && !Blank(s.sessionId)
    && OptionalText(s.agentId) && OptionalText(s.policyVersion)
    && StampText(s.createdAt) && StampText(s.updatedAt)
  }

  /** Equal up to status and time of update. */
  predicate SameSession(a: AgentSession, b: AgentSession) {
    a == b.(status := a.status, updatedAt := a.updatedAt)
  }

  datatype SessionToolCall = SessionToolCall(
    runId: string,
    sessionId: string,
    callId: string,
    sequence: int,
    toolName: string,
    digest: Digest,
    policyRuleId: Option<string>,
    status: CallStatus,
    requestedAt: Stamp,
    updatedAt: Stamp)

  predicate ValidCall(c: SessionToolCall) {
    && !Blank(c.runId) && !Blank(c.sessionId) && !Blank(c.callId) && !Blank(c.toolName)
    && DigestText(c.digest) && c.sequence >= 1 && OptionalText(c.policyRuleId)
    && StampText(c.requestedAt) && StampText(c.updatedAt)
  }

  predicate SameCall(a: SessionToolCall, b: SessionToolCall) {
    a == b.(status := a.status, updatedAt := a.updatedAt)
  }

  /** The decision fields of an approval, which are set together or not at all. */
  datatype Verdict =
    | Pending
    | Approval(approver: string, reason: string, at: Stamp)
    | Denial(approver: string, reason: string, at: Stamp)

  predicate VerdictText(v: Verdict) {
    !v.Pending? ==> !Blank(v.approver) && !Blank(v.reason) && StampText(v.at)
  }

  datatype ApprovalRequest = ApprovalRequest(
    approvalId: string,
    runId: string,
    callId: string,
    toolName: string,
    digest: Digest,
    preview: Arguments,
    policyRuleId: Option<string>,
    reason: string,
    requestedAt: Stamp,
    expiresAt: Option<Stamp>,
    verdict: Verdict)

  predicate ValidApproval(a: ApprovalRequest) {
    && !Blank(a.approvalId) && !Blank(a.runId) && !Blank(a.callId) && !Blank(a.toolName)
    && DigestText(a.digest) && !Blank(a.reason) && OptionalText(a.policyRuleId)
    && StampText(a.requestedAt) && (a.expiresAt.Some? ==> a.expiresAt.value.At?)
    && VerdictText(a.verdict)
  }

  predicate SameApproval(a: ApprovalRequest, b: ApprovalRequest) {
    a == b.(verdict := a.verdict)
  }

  /** `is_expired`; None where a timestamp does not parse. */
  function Expired(a: ApprovalRequest, at: Stamp): Option<bool> {
    if a.expiresAt.None? then Some(false)
    else if a.expiresAt.value.At? && at.At? then Some(a.expiresAt.value.instant <= at.instant)
    else None
  }

  const EXPIRY_REASON := "approval_expired"

  /** `approve` and `deny`: only a pending, unexpired request takes a verdict. */
  function Decide(a: ApprovalRequest, verdict: Verdict): (r: Option<ApprovalRequest>)
    requires !verdict.Pending?
    ensures r.Some? <==>
              && a.verdict.Pending? && VerdictText(verdict)
              && (a.expiresAt.Some? ==>
                    && a.expiresAt.value.At? && verdict.at.At?
                    && verdict.at.instant < a.expiresAt.value.instant)
    ensures r.Some? ==> SameApproval(r.value, a) && r.value.verdict == verdict
  {
    if a.verdict.Pending? && Expired(a, verdict.at) == Some(false) && VerdictText(verdict)
    then Some(a.(verdict := verdict)) else None
  }

  /** `expire`: only a pending request whose time has passed, with the reserved reason. */
  function Expire(a: ApprovalRequest, approver: string, at: Stamp): (r: Option<ApprovalRequest>)
    ensures r.Some? <==>
              && a.verdict.Pending? && !Blank(approver)
              && a.expiresAt.Some? && a.expiresAt.value.At? && at.At?
              && a.expiresAt.value.instant <= at.instant
    ensures r.Some? ==> SameApproval(r.value, a) && r.value.verdict == Denial(approver, EXPIRY_REASON, at)
  {
    var verdict := Denial(approver, EXPIRY_REASON, at);
    assert !IsSpace(EXPIRY_REASON[0]);
    if a.verdict.Pending? && Expired(a, at) == Some(true) && VerdictText(verdict)
    then Some(a.(verdict := verdict)) else None
  }

  datatype Fact = Fact(
    key: string,
    value: string,
    unit: Option<string>,
    callId: string,
    toolName: string,
    simulated: bool)

  predicate ReadableFact(f: Fact) {
    !Blank(f.key) && !Blank(f.value) && OptionalText(f.unit) && !Blank(f.callId) && !Blank(f.toolName)
  }

  predicate Readable(facts: seq<Fact>) {
    forall i | 0 <= i < |facts| :: ReadableFact(facts[i])
  }

  /** A restore point bound to an observed write. */
  datatype Checkpoint = Checkpoint(
    runId: string,
    callId: string,
    path: string,
    existed: bool,
    backupName: Option<string>,
    backupDigest: Option<ContentDigest>,
    postDigest: ContentDigest,
    resultDigest: ContentDigest)

  datatype Event =
    | SessionCreated(session: AgentSession)
    | SessionStatusChanged(session: AgentSession)
    | ToolCallRequested(call: SessionToolCall)
    | ToolCallStatusChanged(call: SessionToolCall)
    | ToolIntent(runId: string, callId: string, toolName: string, arguments: Arguments)
    | ApprovalRequested(approval: ApprovalRequest)
    | ApprovalDecided(approval: ApprovalRequest)
    | FactMapped(runId: string, facts: seq<Fact>)
    | ToolResulted(runId: string, callId: string, ok: bool, output: Option<ContentDigest>)
    | WriteCheckpointed(checkpoint: Checkpoint)
    // an event of a type replay does not read
    | Noted(runId: string, kind: string)
    // an event of a type replay reads, with a field missing or of the wrong type
    | Malformed(runId: string, kind: string)

  function RunOf(e: Event): string {
    match e
    case SessionCreated(s) => s.runId
    case SessionStatusChanged(s) => s.runId
    case ToolCallRequested(c) => c.runId
    case ToolCallStatusChanged(c) => c.runId
    case ApprovalRequested(a) => a.runId
    case ApprovalDecided(a) => a.runId
    case WriteCheckpointed(p) => p.runId
    case ToolIntent(r, _, _, _) => r
    case FactMapped(r, _) => r
    case ToolResulted(r, _, _, _) => r
    case Noted(r, _) => r
    case Malformed(r, _) => r
  }
}
