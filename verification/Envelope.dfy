/** Canonical FCP envelopes: encoding, the wire grammar and its two parsers. */
module Envelopes {
  import opened Results
  import opened Bytes
  import opened Core

  const FCP_WIRE_MARKER: seq<byte> := [0x46, 0x43, 0x50]
  const FCP_WIRE_VERSION: byte := 1
  const MAX_DESCRIPTION_BYTES := 96 * 1024
  const MAX_CANDIDATE_BYTES := 4 * 1024
  const MAX_CFR_CONTROL_BYTES := 4 * 1024 * 1024
  const MAX_ENVELOPE_BYTES := MAX_CFR_CONTROL_BYTES + 8 * 1024

  datatype Body =
    | Offer(binding: WebRtcBinding, description: seq<byte>)
    | Answer(offerId: EnvelopeId, binding: WebRtcBinding, description: seq<byte>)
    | Candidate(parentId: EnvelopeId, sequence: u32, candidate: seq<byte>)
    | Close(reason: CloseCode)
    | CfrControl(payload: seq<byte>)
  {
    function Kind(): byte {
      match this
      case Offer(_, _) => 1
      case Answer(_, _, _) => 2
      case Candidate(_, _, _) => 3
      case Close(_) => 4
      case CfrControl(_) => 5
    }

    /** The variable field of this kind respects its bound. */
    predicate Valid() {
      match this
      case Offer(_, description) => |description| <= MAX_DESCRIPTION_BYTES
      case Answer(_, _, description) => |description| <= MAX_DESCRIPTION_BYTES
      case Candidate(_, _, candidate) => |candidate| <= MAX_CANDIDATE_BYTES
      case Close(_) => true
      case CfrControl(payload) => |payload| <= MAX_CFR_CONTROL_BYTES
    }

    function Bytes(): seq<byte> {
      match this
      case Offer(binding, description) => binding + Prefixed(description)
      case Answer(offerId, binding, description) => offerId + (binding + Prefixed(description))
      case Candidate(parentId, sequence, candidate) => parentId + (BigEndian(4, sequence) + Prefixed(candidate))
      case Close(reason) => BigEndian(2, reason)
      case CfrControl(payload) => Prefixed(payload)
    }
  }

  datatype Envelope = Envelope(
    federation: FederationId,
    attempt: AttemptId,
    sender: EndpointIdentity,
    recipient: EndpointIdentity,
    body: Body,
    classicalSignature: ClassicalSignature,
    postQuantumSignature: PostQuantumSignature)
  {
    function Header(): seq<byte> {
      FCP_WIRE_MARKER + ([FCP_WIRE_VERSION] + ([body.Kind()]
      + (federation + (attempt + (sender.Bytes() + recipient.Bytes())))))
    }

    /** The bytes both signatures cover. */
    function Signed(): seq<byte> {
      Header() + body.Bytes()
    }

    function Wire(): seq<byte> {
      Signed() + (classicalSignature + postQuantumSignature)
    }
  }

  /** A length-prefixed field. */
  function Prefixed(value: seq<byte>): seq<byte> {
    BigEndian(4, |value|) + value
  }

  function SignedBytes(e: Envelope): Result<seq<byte>, Error> {
    if e.body.Valid() then Ok(e.Signed()) else Err(FieldTooLarge)
  }

  function Encode(e: Envelope): Result<seq<byte>, Error> {
    var signed :- SignedBytes(e);
    if |e.Wire()| > MAX_ENVELOPE_BYTES then Err(TooLarge) else Ok(e.Wire())
  }

  /** Any envelope whose field bound holds fits the envelope bound, so `TooLarge` is never an encoder's answer. */
  lemma ValidFits(e: Envelope)
    ensures e.body.Valid() <==> Encode(e).Ok?
    ensures Encode(e) == if e.body.Valid() then Ok(e.Wire()) else Err(FieldTooLarge)
  {
    assert |e.Header()| == 53 + 2 * IDENTITY_BYTES;
  }

  function Verify(suite: Suite, e: Envelope): Outcome<Error> {
    var signed := SignedBytes(e);
    if signed.Err? then Fail(signed.error)
    else suite.Verify(e.sender, signed.value, e.classicalSignature, e.postQuantumSignature)
  }

  function Id(suite: Suite, e: Envelope): Result<EnvelopeId, Error> {
    var wire :- Encode(e);
    Ok(suite.digest(wire))
  }

  function Sign(signer: Signer, federation: FederationId, attempt: AttemptId, recipient: EndpointIdentity, body: Body)
    : Result<Envelope, Error>
  {
    var blank := Envelope(federation, attempt, signer.endpoint, recipient, body,
                          seq(64, i => 0), seq(ML_DSA_65_SIGNATURE_BYTES, i => 0));
    var transcript :- SignedBytes(blank);
    Ok(blank.(classicalSignature := signer.signClassical(transcript),
              postQuantumSignature := signer.signPostQuantum(transcript)))
  }

  /** Signing succeeds exactly on bounded bodies, and what it makes verifies, encodes and has an id. */
  lemma SignedVerifies(suite: Suite, signer: Signer, federation: FederationId, attempt: AttemptId,
                       recipient: EndpointIdentity, body: Body)
    requires signer.Correct(suite)
    ensures var r := Sign(signer, federation, attempt, recipient, body);
            && (r.Ok? <==> body.Valid())
            && (r.Ok? ==> Verify(suite, r.value).Pass? && Id(suite, r.value).Ok? && r.value.body == body)
  {
    var r := Sign(signer, federation, attempt, recipient, body);
    if r.Ok? {
      ValidFits(r.value);
      var blank := Envelope(federation, attempt, signer.endpoint, recipient, body,
                            seq(64, i => 0), seq(ML_DSA_65_SIGNATURE_BYTES, i => 0));
      assert r.value.Signed() == blank.Signed();
    }
  }
}
