/** Anchors: a signature over the head of a verified trace. */
module Signing {
  import opened Texts
  import opened Entities
  import opened EvidenceLog

  datatype KeyPair = KeyPair(id: nat)

  datatype Payload = Payload(runId: string, count: nat, head: Option<Hash>, signedAt: int, keyId: nat)

  /** Ed25519, idealised: a signature made with a key on a payload verifies for that key and
      payload alone; `Junk` verifies for none. */
  datatype Signature = Made(key: KeyPair, payload: Payload) | Junk(text: string)

  /** A key as it is found in a file or an anchor. */
  datatype KeyText = Ed25519(key: KeyPair) | OtherKind | Unloadable

  datatype Anchor = Anchor(payload: Payload, signature: Signature, publicKey: KeyText)

  /** The anchor file: one of the required shape, or anything else, or none. */
  datatype AnchorFile = Parsed(anchor: Anchor) | Shapeless | Absent

  /** `sign_verified_trace`; None where it raises. */
  method SignVerifiedTrace(runId: string, records: seq<Record>, privateKey: KeyText, passphrase: string, signedAt: int)
    returns (a: Option<Anchor>)
    ensures a.Some? <==> passphrase != "" && Chained(records) && privateKey.Ed25519?
    ensures a.Some? ==> a.value == Signed(runId, records, privateKey.key, signedAt)
  {
    if passphrase == "" {
      return None;
    }
    var verification := VerifyEvents(records);
    if !verification.Valid? || !privateKey.Ed25519? {
      return None;
    }
    var payload := Payload(runId, verification.count, verification.head, signedAt, privateKey.key.id);
    return Some(Anchor(payload, Made(privateKey.key, payload), privateKey));
  }

  function Signed(runId: string, records: seq<Record>, key: KeyPair, signedAt: int): Anchor {
    var payload := Payload(runId, |records|, HashAt(records, |records|), signedAt, key.id);
    Anchor(payload, Made(key, payload), Ed25519(key))
  }

  datatype AnchorResult =
    | AnchorValid
    | InvalidAnchor
    | RunIdMismatch
    | InvalidPublicKey
    | UnsupportedPublicKey
    | PublicKeyIdMismatch
    | SignatureInvalid
    | TraceInvalid
    | TraceHeadChanged

  /** `verify_trace_anchor`, with a given public key or the anchor's own. */
  method VerifyTraceAnchor(runId: string, file: AnchorFile, given: Option<KeyText>, records: seq<Record>)
    returns (r: AnchorResult)
    ensures r == AnchorCheck(runId, file, given, records)
  {
    if !file.Parsed? || file.anchor.payload.runId == "" {
      return InvalidAnchor;
    }
    var a := file.anchor;
    if a.payload.runId != runId {
      return RunIdMismatch;
    }
    var publicKey := if given.Some? then given.value else a.publicKey;
    match publicKey {
      case Unloadable =>
        return InvalidPublicKey;
      case OtherKind =>
        return UnsupportedPublicKey;
      case Ed25519(key) =>
        if a.payload.keyId != key.id {
          return PublicKeyIdMismatch;
        }
        if a.signature != Made(key, a.payload) {
          return SignatureInvalid;
        }
    }
    var verification := VerifyEvents(records);
    if !verification.Valid? {
      return TraceInvalid;
    }
    if verification.count != a.payload.count || verification.head != a.payload.head {
      return TraceHeadChanged;
    }
    return AnchorValid;
  }

  function AnchorCheck(runId: string, file: AnchorFile, given: Option<KeyText>, records: seq<Record>): AnchorResult {
    if !file.Parsed? || file.anchor.payload.runId == "" then InvalidAnchor
    else
      var a := file.anchor;
      var key := if given.Some? then given.value else a.publicKey;
      if a.payload.runId != runId then RunIdMismatch
      else if key.Unloadable? then InvalidPublicKey
      else if key.OtherKind? then UnsupportedPublicKey
      else if a.payload.keyId != key.key.id then PublicKeyIdMismatch
      else if a.signature != Made(key.key, a.payload) then SignatureInvalid
      else if !Chained(records) then TraceInvalid
      else if |records| != a.payload.count || HashAt(records, |records|) != a.payload.head then TraceHeadChanged
      else AnchorValid
  }

  /** Whoever made it: an anchor is valid for a trace exactly if the checking key signed that
      very trace, and then it is valid for no other one. */
  lemma ValidAnchorsPinTheTrace(runId: string, file: AnchorFile, given: Option<KeyText>, records: seq<Record>,
                                other: seq<Record>)
    ensures AnchorCheck(runId, file, given, records).AnchorValid? <==>
              && file.Parsed? && runId != "" && Chained(records)
              && var key := if given.Some? then given.value else file.anchor.publicKey;
                 && key.Ed25519?
                 && file.anchor == Signed(runId, records, key.key, file.anchor.payload.signedAt)
                                   .(publicKey := file.anchor.publicKey)
    ensures var here := AnchorCheck(runId, file, given, records);
            var there := AnchorCheck(runId, file, given, other);
            here.AnchorValid? && there.AnchorValid? ==> other == records
  {
    if AnchorCheck(runId, file, given, records).AnchorValid? && AnchorCheck(runId, file, given, other).AnchorValid? {
      HeadDeterminesLog(other, records);
    }
  }

  /** An anchor made over one trace is valid for a trace exactly if it is that trace. */
  lemma AnchorPinsTheTrace(runId: string, signed: seq<Record>, key: KeyPair, signedAt: int, now: seq<Record>)
    requires Chained(signed) && runId != ""
    ensures AnchorCheck(runId, Parsed(Signed(runId, signed, key, signedAt)), None, now).AnchorValid? <==> now == signed
  {
    if AnchorCheck(runId, Parsed(Signed(runId, signed, key, signedAt)), None, now).AnchorValid? {
      HeadDeterminesLog(now, signed);
    }
  }

  /** Every later append, and only a change of the head, is reported as one. */
  lemma AppendsInvalidateAnchors(runId: string, signed: seq<Record>, key: KeyPair, signedAt: int, more: seq<Record>)
    requires Chained(signed) && Chained(signed + more) && more != [] && runId != ""
    ensures AnchorCheck(runId, Parsed(Signed(runId, signed, key, signedAt)), None, signed + more) == TraceHeadChanged
  {
  }
}
