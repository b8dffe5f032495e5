/** The buffer-driven code: the writer, the cursor, the owning parser and the borrowed parser. */
module EnvelopeParsers {
  import opened Results
  import opened Bytes
  import opened Core
  import opened Envelopes
  import opened EnvelopeCodec

  class Writer {
    var buffer: seq<byte>

    constructor ()
      ensures buffer == []
    {
      buffer := [];
    }

    method Fixed(value: seq<byte>)
      modifies this
      ensures buffer == old(buffer) + value
    {
      buffer := buffer + value;
    }

    method Identity(identity: EndpointIdentity)
      modifies this
      ensures buffer == old(buffer) + identity.Bytes()
    {
      Fixed(identity.classical);
      Fixed(identity.postQuantum);
    }

    method Prefixed(value: seq<byte>) returns (r: Outcome<Error>)
      modifies this
      ensures r.Pass? <==> |value| <= MAX_CFR_CONTROL_BYTES
      ensures buffer == old(buffer) + if r.Pass? then Envelopes.Prefixed(value) else []
      ensures r.Fail? ==> r.error == FieldTooLarge
    {
      if |value| > MAX_CFR_CONTROL_BYTES {
        return Fail(FieldTooLarge);
      }
      Fixed(BigEndian(4, |value|));
      Fixed(value);
      r := Pass;
    }
  }

  method WriteBody(w: Writer, body: Body) returns (r: Outcome<Error>)
    requires body.Valid()
    modifies w
    ensures r.Pass? && w.buffer == old(w.buffer) + body.Bytes()
  {
    ghost var start := w.buffer;
    match body
    case Offer(binding, description) =>
      w.Fixed(binding);
      r := w.Prefixed(description);
      Regroup(start, binding, Envelopes.Prefixed(description));
    case Answer(offerId, binding, description) =>
      w.Fixed(offerId);
      w.Fixed(binding);
      r := w.Prefixed(description);
      Regroup(start + offerId, binding, Envelopes.Prefixed(description));
      Regroup(start, offerId, binding + Envelopes.Prefixed(description));
    case Candidate(parentId, sequence, candidate) =>
      w.Fixed(parentId);
      w.Fixed(BigEndian(4, sequence));
      r := w.Prefixed(candidate);
      Regroup(start + parentId, BigEndian(4, sequence), Envelopes.Prefixed(candidate));
      Regroup(start, parentId, BigEndian(4, sequence) + Envelopes.Prefixed(candidate));
    case Close(reason) =>
      w.Fixed(BigEndian(2, reason));
      r := Pass;
    case CfrControl(payload) =>
      r := w.Prefixed(payload);
  }

  method WriteSigned(e: Envelope) returns (r: Result<seq<byte>, Error>)
    ensures r == SignedBytes(e)
  {
    if !e.body.Valid() {
      return Err(FieldTooLarge);
    }
    var w := new Writer();
    w.Fixed(FCP_WIRE_MARKER);
    w.Fixed([FCP_WIRE_VERSION]);
    w.Fixed([e.body.Kind()]);
    w.Fixed(e.federation);
    w.Fixed(e.attempt);
    w.Identity(e.sender);
    w.Identity(e.recipient);
    assert w.buffer == e.Header();
    var written := WriteBody(w, e.body);
    r := if written.Pass? then Ok(w.buffer) else Err(FieldTooLarge);
  }

  method WriteWire(e: Envelope) returns (r: Result<seq<byte>, Error>)
    ensures r == Encode(e)
  {
    var bytes :- WriteSigned(e);
    bytes := bytes + e.classicalSignature;
    bytes := bytes + e.postQuantumSignature;
    assert bytes == e.Wire();
    r := if |bytes| > MAX_ENVELOPE_BYTES then Err(TooLarge) else Ok(bytes);
  }

  /** What a cursor returned and left unread is one reading of the grammar. */
  ghost predicate Reads<T>(reading: Reading<T>, r: Result<T, Error>, rest: seq<byte>) {
    reading == if r.Ok? then Ok((r.value, rest)) else Err(r.error)
  }

  class Reader {
    const wire: seq<byte>
    var offset: nat

    ghost predicate Valid()
      reads this
    {
      offset <= |wire|
    }

    ghost function Rest(): seq<byte>
      requires Valid()
      reads this
    {
      wire[offset..]
    }

    constructor (wire: seq<byte>)
      ensures Valid() && this.wire == wire && Rest() == wire
    {
      this.wire := wire;
      offset := 0;
    }

    method Fixed(n: nat) returns (r: Result<seq<byte>, Error>)
      requires Valid()
      modifies this
      ensures Valid() && Reads(TakeFixed(old(Rest()), n), r, Rest())
      ensures r.Ok? ==> |r.value| == n
    {
      var end := offset + n;
      if end > |wire| {
        return Err(Truncated);
      }
      r := Ok(wire[offset..end]);
      assert wire[offset..end] == old(Rest())[..n];
      offset := end;
    }

    method Prefixed(max: nat) returns (r: Result<seq<byte>, Error>)
      requires Valid()
      modifies this
      ensures Valid() && Reads(TakePrefixed(old(Rest()), max), r, Rest())
    {
      var length :- Fixed(4);
      if FromBigEndian(length) > max {
        return Err(FieldTooLarge);
      }
      r := Fixed(FromBigEndian(length));
    }

    method Identity() returns (r: Result<EndpointIdentity, Error>)
      requires Valid()
      modifies this
      ensures Valid() && Reads(TakeIdentity(old(Rest())), r, Rest())
    {
      var classical :- Fixed(32);
      var postQuantum :- Fixed(ML_DSA_65_PUBLIC_KEY_BYTES);
      r := Ok(EndpointIdentity(classical, postQuantum));
    }

    method Header() returns (r: Result<EnvelopeCodec.Header, Error>)
      requires Valid()
      modifies this
      ensures Valid() && Reads(TakeHeader(old(Rest())), r, Rest())
      ensures r.Ok? ==> 1 <= r.value.kind <= 5
    {
      var marker :- Fixed(3);
      if marker != FCP_WIRE_MARKER {
        return Err(BadMarker);
      }
      var version :- Fixed(1);
      if version[0] != FCP_WIRE_VERSION {
        return Err(UnsupportedVersion);
      }
      var kind :- Fixed(1);
      if !(1 <= kind[0] <= 5) {
        return Err(UnknownKind);
      }
      var federation :- Fixed(32);
      var attempt :- Fixed(16);
      var sender :- Identity();
      var recipient :- Identity();
      r := Ok(EnvelopeCodec.Header(kind[0], Routing(federation, attempt, sender, recipient)));
    }

    /** The owning parser's body: every field is kept. */
    method Body(kind: byte) returns (r: Result<Envelopes.Body, Error>)
      requires Valid() && 1 <= kind <= 5
      modifies this
      ensures Valid() && Reads(TakeBody(kind, old(Rest())), r, Rest())
    {
      if kind == 1 {
        var binding :- Fixed(32);
        var description :- Prefixed(MAX_DESCRIPTION_BYTES);
        r := Ok(Offer(binding, description));
      } else if kind == 2 {
        var offerId :- Fixed(32);
        var binding :- Fixed(32);
        var description :- Prefixed(MAX_DESCRIPTION_BYTES);
        r := Ok(Answer(offerId, binding, description));
      } else if kind == 3 {
        var parentId :- Fixed(32);
        var sequence :- Fixed(4);
        var candidate :- Prefixed(MAX_CANDIDATE_BYTES);
        r := Ok(Candidate(parentId, Unsigned32(sequence), candidate));
      } else if kind == 4 {
        var reason :- Fixed(2);
        r := Ok(Close(Unsigned16(reason)));
      } else {
        var payload :- Prefixed(MAX_CFR_CONTROL_BYTES);
        r := Ok(CfrControl(payload));
      }
    }

    /** The borrowed parser's body: every field is stepped over. */
    method SkipBody(kind: byte) returns (r: Outcome<Error>)
      requires Valid() && 1 <= kind <= 5
      modifies this
      ensures Valid()
      ensures var reading := TakeBody(kind, old(Rest()));
              if r.Pass? then reading.Ok? && reading.value.1 == Rest() else reading == Err(r.error)
    {
      if kind == 1 || kind == 2 {
        if kind == 2 {
          var offerId := Fixed(32);
          if offerId.Err? { return Fail(offerId.error); }
        }
        var binding := Fixed(32);
        if binding.Err? { return Fail(binding.error); }
        var description := Prefixed(MAX_DESCRIPTION_BYTES);
        if description.Err? { return Fail(description.error); }
      } else if kind == 3 {
        var parentId := Fixed(32);
        if parentId.Err? { return Fail(parentId.error); }
        var sequence := Fixed(4);
        if sequence.Err? { return Fail(sequence.error); }
        var candidate := Prefixed(MAX_CANDIDATE_BYTES);
        if candidate.Err? { return Fail(candidate.error); }
      } else if kind == 4 {
        var reason := Fixed(2);
        if reason.Err? { return Fail(reason.error); }
      } else {
        var payload := Prefixed(MAX_CFR_CONTROL_BYTES);
        if payload.Err? { return Fail(payload.error); }
      }
      r := Pass;
    }

    method Signatures() returns (r: Result<(ClassicalSignature, PostQuantumSignature), Error>)
      requires Valid()
      modifies this
      ensures Valid() && r == TakeSignatures(old(Rest()))
    {
      var classical :- Fixed(64);
      var postQuantum :- Fixed(ML_DSA_65_SIGNATURE_BYTES);
      r := if offset == |wire| then Ok((classical, postQuantum)) else Err(TrailingBytes);
    }
  }

  /** The re-encode check at the end of the owning parser, which never fires on what the grammar produced. */
  method Recheck(wire: seq<byte>, e: Envelope) returns (r: Result<Envelope, Error>)
    requires Parse(wire).Ok? && Parse(wire).value.envelope == e
    ensures r == Ok(e)
  {
    ParseSound(wire);
    ValidFits(e);
    var again := WriteWire(e);
    r := if again != Ok(wire) then Err(NonCanonical) else Ok(e);
  }

  /** The owning parser computes the grammar. */
  method Decode(wire: seq<byte>) returns (r: Result<Envelope, Error>)
    ensures r == match Parse(wire) case Ok(p) => Ok(p.envelope) case Err(e) => Err(e)
  {
    if |wire| > MAX_ENVELOPE_BYTES {
      return Err(TooLarge);
    }
    var reader := new Reader(wire);
    var h :- reader.Header();
    var body :- reader.Body(h.kind);
    var signatures :- reader.Signatures();
    r := Recheck(wire, Assemble(h.routing, body, signatures.0, signatures.1));
  }

  /** The borrowed parser accepts the same grammar and checks both signatures over the signed prefix. */
  method VerifyWire(suite: Suite, wire: seq<byte>) returns (r: Outcome<Error>)
    ensures match Parse(wire)
            case Ok(p) => r == Verify(suite, p.envelope)
            case Err(e) => r == Fail(e)
  {
    if |wire| > MAX_ENVELOPE_BYTES {
      return Fail(TooLarge);
    }
    var reader := new Reader(wire);
    var header := reader.Header();
    if header.Err? { return Fail(header.error); }
    var skipped := reader.SkipBody(header.value.kind);
    if skipped.Fail? { return skipped; }
    var signedEnd := reader.offset;
    var signatures := reader.Signatures();
    if signatures.Err? { return Fail(signatures.error); }
    ParseSound(wire);
    r := suite.Verify(header.value.routing.sender, wire[..signedEnd], signatures.value.0, signatures.value.1);
  }

  /**
   The adapter's entry point accepts a wire exactly when it is the encoding of a bounded envelope whose
   two signatures verify over its signed bytes, and returns that envelope.
   */
  method DecodeVerified(suite: Suite, wire: seq<byte>) returns (r: Result<Envelope, Error>)
    ensures r.Ok? ==> Encode(r.value) == Ok(wire) && Verify(suite, r.value).Pass?
    ensures forall e | Encode(e) == Ok(wire) && Verify(suite, e).Pass? :: r == Ok(e)
    ensures r.Err? ==>
              || (Parse(wire) == Err(r.error) && r.error != NonCanonical)
              || exists e :: Encode(e) == Ok(wire) && Verify(suite, e) == Fail(r.error)
  {
    NeverNonCanonical(wire);
    forall e | Encode(e) == Ok(wire)
      ensures Parse(wire).Ok? && Parse(wire).value.envelope == e
    {
      ParseComplete(e);
    }
    ParseSound(wire);
    if Parse(wire).Ok? {
      ValidFits(Parse(wire).value.envelope);
    }
    var verified := VerifyWire(suite, wire);
    if verified.Fail? {
      r := Err(verified.error);
    } else {
      r := Decode(wire);
    }
  }
}
