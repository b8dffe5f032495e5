/** The envelope wire grammar, and the writer, the owning parser and the borrowed parser proved against it. */
module EnvelopeCodec {
  import opened Results
  import opened Bytes
  import opened Core
  import opened Envelopes

  // ---- The grammar, read off the unread suffix of the wire ----

  type Reading<T> = Result<(T, seq<byte>), Error>

  function TakeFixed(s: seq<byte>, n: nat): (r: Reading<seq<byte>>)
    ensures r.Ok? ==> s == r.value.0 + r.value.1 && |r.value.0| == n
    ensures r.Err? <==> |s| < n
  {
    if n <= |s| then Ok((s[..n], s[n..])) else Err(Truncated)
  }

  function TakePrefixed(s: seq<byte>, max: nat): (r: Reading<seq<byte>>)
    ensures r.Ok? ==> s == Prefixed(r.value.0) + r.value.1 && |r.value.0| <= max
  {
    var (prefix, s1) :- TakeFixed(s, 4);
    if FromBigEndian(prefix) > max then Err(FieldTooLarge) else
    BigEndianEncodes(prefix);
    TakeFixed(s1, FromBigEndian(prefix))
  }

  function TakeIdentity(s: seq<byte>): (r: Reading<EndpointIdentity>)
    ensures r.Ok? ==> s == r.value.0.Bytes() + r.value.1
  {
    var (classical, s1) :- TakeFixed(s, 32);
    var (postQuantum, s2) :- TakeFixed(s1, ML_DSA_65_PUBLIC_KEY_BYTES);
    Ok((EndpointIdentity(classical, postQuantum), s2))
  }

  /** Who an envelope is from and for. */
  datatype Routing = Routing(
    federation: FederationId,
    attempt: AttemptId,
    sender: EndpointIdentity,
    recipient: EndpointIdentity)
  {
    function Bytes(): seq<byte> {
      federation + (attempt + (sender.Bytes() + recipient.Bytes()))
    }
  }

  function TakeRouting(s: seq<byte>): (r: Reading<Routing>)
    ensures r.Ok? ==> s == r.value.0.Bytes() + r.value.1
  {
    var (federation, s1) :- TakeFixed(s, 32);
    var (attempt, s2) :- TakeFixed(s1, 16);
    var (sender, s3) :- TakeIdentity(s2);
    var (recipient, s4) :- TakeIdentity(s3);
    Regroup(sender.Bytes(), recipient.Bytes(), s4);
    Regroup(attempt, sender.Bytes() + recipient.Bytes(), s4);
    Regroup(federation, attempt + (sender.Bytes() + recipient.Bytes()), s4);
    Ok((Routing(federation, attempt, sender, recipient), s4))
  }

  datatype Header = Header(kind: byte, routing: Routing) {
    function Bytes(): seq<byte> {
      FCP_WIRE_MARKER + ([FCP_WIRE_VERSION] + ([kind] + routing.Bytes()))
    }
  }

  function TakeHeader(s: seq<byte>): (r: Reading<Header>)
    ensures r.Ok? ==> s == r.value.0.Bytes() + r.value.1 && 1 <= r.value.0.kind <= 5
  {
    var (marker, s1) :- TakeFixed(s, 3);
    if marker != FCP_WIRE_MARKER then Err(BadMarker) else
    var (version, s2) :- TakeFixed(s1, 1);
    if version[0] != FCP_WIRE_VERSION then Err(UnsupportedVersion) else
    var (kind, s3) :- TakeFixed(s2, 1);
    if !(1 <= kind[0] <= 5) then Err(UnknownKind) else
    var (routing, s4) :- TakeRouting(s3);
    Regroup(kind, routing.Bytes(), s4);
    Regroup(version, kind + routing.Bytes(), s4);
    Regroup(marker, version + (kind + routing.Bytes()), s4);
    assert kind == [kind[0]] && version == [version[0]];
    Ok((Header(kind[0], routing), s4))
  }

  function Unsigned32(s: seq<byte>): u32
    requires |s| == 4
  {
    Widths();
    FromBigEndian(s)
  }

  function Unsigned16(s: seq<byte>): u16
    requires |s| == 2
  {
    Widths();
    FromBigEndian(s)
  }

  function TakeOffer(s: seq<byte>): (r: Reading<Body>)
    ensures r.Ok? ==> r.value.0.Offer? && r.value.0.Valid() && s == r.value.0.Bytes() + r.value.1
  {
    var (binding, s1) :- TakeFixed(s, 32);
    var (description, s2) :- TakePrefixed(s1, MAX_DESCRIPTION_BYTES);
    Ok((Offer(binding, description), s2))
  }

  function TakeAnswer(s: seq<byte>): (r: Reading<Body>)
    ensures r.Ok? ==> r.value.0.Answer? && r.value.0.Valid() && s == r.value.0.Bytes() + r.value.1
  {
    var (offerId, s1) :- TakeFixed(s, 32);
    var (binding, s2) :- TakeFixed(s1, 32);
    var (description, s3) :- TakePrefixed(s2, MAX_DESCRIPTION_BYTES);
    Ok((Answer(offerId, binding, description), s3))
  }

  function TakeCandidate(s: seq<byte>): (r: Reading<Body>)
    ensures r.Ok? ==> r.value.0.Candidate? && r.value.0.Valid() && s == r.value.0.Bytes() + r.value.1
  {
    var (parentId, s1) :- TakeFixed(s, 32);
    var (sequence, s2) :- TakeFixed(s1, 4);
    var (candidate, s3) :- TakePrefixed(s2, MAX_CANDIDATE_BYTES);
    BigEndianEncodes(sequence);
    Ok((Candidate(parentId, Unsigned32(sequence), candidate), s3))
  }

  function TakeClose(s: seq<byte>): (r: Reading<Body>)
    ensures r.Ok? ==> r.value.0.Close? && r.value.0.Valid() && s == r.value.0.Bytes() + r.value.1
  {
    var (reason, s1) :- TakeFixed(s, 2);
    BigEndianEncodes(reason);
    Ok((Close(Unsigned16(reason)), s1))
  }

  function TakeCfrControl(s: seq<byte>): (r: Reading<Body>)
    ensures r.Ok? ==> r.value.0.CfrControl? && r.value.0.Valid() && s == r.value.0.Bytes() + r.value.1
  {
    var (payload, s1) :- TakePrefixed(s, MAX_CFR_CONTROL_BYTES);
    Ok((CfrControl(payload), s1))
  }

  function TakeBody(kind: byte, s: seq<byte>): (r: Reading<Body>)
    requires 1 <= kind <= 5
    ensures r.Ok? ==> r.value.0.Kind() == kind && r.value.0.Valid() && s == r.value.0.Bytes() + r.value.1
  {
    if kind == 1 then TakeOffer(s)
    else if kind == 2 then TakeAnswer(s)
    else if kind == 3 then TakeCandidate(s)
    else if kind == 4 then TakeClose(s)
    else TakeCfrControl(s)
  }

  /** Both signatures and nothing after them. */
  function TakeSignatures(s: seq<byte>): (r: Result<(ClassicalSignature, PostQuantumSignature), Error>)
    ensures r.Ok? ==> s == r.value.0 + r.value.1
  {
    var (classical, s1) :- TakeFixed(s, 64);
    var (postQuantum, s2) :- TakeFixed(s1, ML_DSA_65_SIGNATURE_BYTES);
    if s2 == [] then Ok((classical, postQuantum)) else Err(TrailingBytes)
  }

  /** An envelope and where its signed prefix ends. */
  datatype Parsed = Parsed(envelope: Envelope, signedEnd: nat)

  function Parse(wire: seq<byte>): Result<Parsed, Error> {
    if |wire| > MAX_ENVELOPE_BYTES then Err(TooLarge) else
    var (h, s1) :- TakeHeader(wire);
    var (body, s2) :- TakeBody(h.kind, s1);
    var (classical, postQuantum) :- TakeSignatures(s2);
    Ok(Parsed(Assemble(h.routing, body, classical, postQuantum), |wire| - |s2|))
  }

  function Assemble(r: Routing, body: Body, classical: ClassicalSignature, postQuantum: PostQuantumSignature): Envelope {
    Envelope(r.federation, r.attempt, r.sender, r.recipient, body, classical, postQuantum)
  }

  // ---- Every reading is of an encoding ----

  /** Canonicality: whatever parses is the encoding of what it parses to, and the signed prefix is what was signed. */
  lemma ParseSound(wire: seq<byte>)
    ensures var r := Parse(wire);
            r.Ok? ==>
              && r.value.envelope.body.Valid()
              && wire == r.value.envelope.Wire()
              && r.value.signedEnd <= |wire|
              && wire[..r.value.signedEnd] == r.value.envelope.Signed()
  {
    var r := Parse(wire);
    if r.Ok? {
      var e := r.value.envelope;
      var (h, s1) := TakeHeader(wire).value;
      var (body, s2) := TakeBody(h.kind, s1).value;
      assert e.Header() == h.Bytes();
      assert wire == e.Signed() + s2;
    }
  }

  lemma BodyErrors(kind: byte, s: seq<byte>)
    requires 1 <= kind <= 5
    ensures TakeBody(kind, s).Ok? || TakeBody(kind, s).error in {Truncated, FieldTooLarge}
  {
  }

  /** The grammar never answers `NonCanonical`. */
  lemma NeverNonCanonical(wire: seq<byte>)
    ensures Parse(wire) != Err(NonCanonical)
  {
    if |wire| <= MAX_ENVELOPE_BYTES {
      var header := TakeHeader(wire);
      if header.Ok? {
        BodyErrors(header.value.0.kind, header.value.1);
      }
    }
  }

  // ---- Every encoding reads back ----

  lemma FixedComplete(a: seq<byte>, rest: seq<byte>)
    ensures TakeFixed(a + rest, |a|) == Ok((a, rest))
  {
    assert (a + rest)[..|a|] == a && (a + rest)[|a|..] == rest;
  }

  lemma PrefixedComplete(value: seq<byte>, max: nat, rest: seq<byte>)
    requires |value| <= max < 0x1_0000_0000
    ensures TakePrefixed(Prefixed(value) + rest, max) == Ok((value, rest))
  {
    Widths();
    BigEndianDecodes(4, |value|);
    Regroup(BigEndian(4, |value|), value, rest);
    FixedComplete(BigEndian(4, |value|), value + rest);
    FixedComplete(value, rest);
  }

  lemma IdentityComplete(identity: EndpointIdentity, rest: seq<byte>)
    ensures TakeIdentity(identity.Bytes() + rest) == Ok((identity, rest))
  {
    Regroup(identity.classical, identity.postQuantum, rest);
    FixedComplete(identity.classical, identity.postQuantum + rest);
    FixedComplete(identity.postQuantum, rest);
  }

  lemma RoutingComplete(r: Routing, rest: seq<byte>)
    ensures TakeRouting(r.Bytes() + rest) == Ok((r, rest))
  {
    var s3 := r.recipient.Bytes() + rest;
    var s2 := r.sender.Bytes() + s3;
    Regroup(r.federation, r.attempt + (r.sender.Bytes() + r.recipient.Bytes()), rest);
    Regroup(r.attempt, r.sender.Bytes() + r.recipient.Bytes(), rest);
    Regroup(r.sender.Bytes(), r.recipient.Bytes(), rest);
    FixedComplete(r.federation, r.attempt + s2);
    FixedComplete(r.attempt, s2);
    IdentityComplete(r.sender, s3);
    IdentityComplete(r.recipient, rest);
  }

  lemma HeaderComplete(h: Header, rest: seq<byte>)
    requires 1 <= h.kind <= 5
    ensures TakeHeader(h.Bytes() + rest) == Ok((h, rest))
  {
    var s3 := h.routing.Bytes() + rest;
    Regroup(FCP_WIRE_MARKER, [FCP_WIRE_VERSION] + ([h.kind] + h.routing.Bytes()), rest);
    Regroup([FCP_WIRE_VERSION], [h.kind] + h.routing.Bytes(), rest);
    Regroup([h.kind], h.routing.Bytes(), rest);
    FixedComplete(FCP_WIRE_MARKER, [FCP_WIRE_VERSION] + ([h.kind] + s3));
    FixedComplete([FCP_WIRE_VERSION], [h.kind] + s3);
    FixedComplete([h.kind], s3);
    RoutingComplete(h.routing, rest);
  }

  lemma OfferComplete(body: Body, rest: seq<byte>)
    requires body.Offer? && body.Valid()
    ensures TakeOffer(body.Bytes() + rest) == Ok((body, rest))
  {
    Regroup(body.binding, Prefixed(body.description), rest);
    FixedComplete(body.binding, Prefixed(body.description) + rest);
    PrefixedComplete(body.description, MAX_DESCRIPTION_BYTES, rest);
  }

  lemma AnswerComplete(body: Body, rest: seq<byte>)
    requires body.Answer? && body.Valid()
    ensures TakeAnswer(body.Bytes() + rest) == Ok((body, rest))
  {
    var s2 := Prefixed(body.description) + rest;
    Regroup(body.offerId, body.binding + Prefixed(body.description), rest);
    Regroup(body.binding, Prefixed(body.description), rest);
    FixedComplete(body.offerId, body.binding + s2);
    FixedComplete(body.binding, s2);
    PrefixedComplete(body.description, MAX_DESCRIPTION_BYTES, rest);
  }

  lemma CandidateComplete(body: Body, rest: seq<byte>)
    requires body.Candidate? && body.Valid()
    ensures TakeCandidate(body.Bytes() + rest) == Ok((body, rest))
  {
    Widths();
    var s2 := Prefixed(body.candidate) + rest;
    var sequence := BigEndian(4, body.sequence);
    Regroup(body.parentId, sequence + Prefixed(body.candidate), rest);
    Regroup(sequence, Prefixed(body.candidate), rest);
    FixedComplete(body.parentId, sequence + s2);
    FixedComplete(sequence, s2);
    BigEndianDecodes(4, body.sequence);
    PrefixedComplete(body.candidate, MAX_CANDIDATE_BYTES, rest);
  }

  lemma CloseComplete(body: Body, rest: seq<byte>)
    requires body.Close?
    ensures TakeClose(body.Bytes() + rest) == Ok((body, rest))
  {
    Widths();
    FixedComplete(BigEndian(2, body.reason), rest);
    BigEndianDecodes(2, body.reason);
  }

  lemma CfrControlComplete(body: Body, rest: seq<byte>)
    requires body.CfrControl? && body.Valid()
    ensures TakeCfrControl(body.Bytes() + rest) == Ok((body, rest))
  {
    PrefixedComplete(body.payload, MAX_CFR_CONTROL_BYTES, rest);
  }

  lemma BodyComplete(body: Body, rest: seq<byte>)
    requires body.Valid()
    ensures TakeBody(body.Kind(), body.Bytes() + rest) == Ok((body, rest))
  {
    match body
    case Offer(_, _) => OfferComplete(body, rest);
    case Answer(_, _, _) => AnswerComplete(body, rest);
    case Candidate(_, _, _) => CandidateComplete(body, rest);
    case Close(_) => CloseComplete(body, rest);
    case CfrControl(_) => CfrControlComplete(body, rest);
  }

  lemma SignaturesComplete(classical: ClassicalSignature, postQuantum: PostQuantumSignature)
    ensures TakeSignatures(classical + postQuantum) == Ok((classical, postQuantum))
  {
    FixedComplete(classical, postQuantum);
    assert postQuantum == postQuantum + [];
    FixedComplete(postQuantum, []);
  }

  lemma WireSplits(e: Envelope, h: Header, signatures: seq<byte>)
    requires h == Header(e.body.Kind(), Routing(e.federation, e.attempt, e.sender, e.recipient))
    requires signatures == e.classicalSignature + e.postQuantumSignature
    ensures e.Wire() == h.Bytes() + (e.body.Bytes() + signatures)
  {
    assert e.Header() == h.Bytes();
  }

  /** Round trip: every bounded envelope encodes, and its wire parses back to it. */
  lemma ParseComplete(e: Envelope)
    requires e.body.Valid()
    ensures Parse(e.Wire()) == Ok(Parsed(e, |e.Signed()|))
  {
    var h := Header(e.body.Kind(), Routing(e.federation, e.attempt, e.sender, e.recipient));
    var signatures := e.classicalSignature + e.postQuantumSignature;
    ValidFits(e);
    WireSplits(e, h, signatures);
    HeaderComplete(h, e.body.Bytes() + signatures);
    BodyComplete(e.body, signatures);
    SignaturesComplete(e.classicalSignature, e.postQuantumSignature);
    var wire, s1 := e.Wire(), e.body.Bytes() + signatures;
    assert TakeHeader(wire).value == (h, s1) && TakeBody(h.kind, s1).value == (e.body, signatures);
    assert TakeSignatures(signatures).value == (e.classicalSignature, e.postQuantumSignature);
    assert |wire| - |signatures| == |e.Signed()|;
  }
}
