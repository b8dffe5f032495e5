/** One FCP connection attempt: its state, its operations, and the class that updates it in place. */
module Connections {
  import Bytes
  import opened Results
  import opened Core
  import opened Envelopes

  const MAX_SEEN_ENVELOPES := 1024

  datatype Phase = Idle | OfferSent | OfferReceived | AnswerSent | AnswerReceived | Established | Closed

  datatype NegotiationIds = NegotiationIds(offer: EnvelopeId, answer: Option<EnvelopeId>)

  datatype Action =
    | Send(envelope: Envelope)
    | ApplyOffer(binding: WebRtcBinding, description: seq<Bytes.byte>)
    | ApplyAnswer(binding: WebRtcBinding, description: seq<Bytes.byte>)
    | AddCandidate(sequence: u32, candidate: seq<Bytes.byte>)
    | OpenControlChannel
    | DeliverCfr(envelopeId: EnvelopeId, remoteEndpoint: EndpointIdentity, payload: seq<Bytes.byte>)
    | CloseTransport(reason: CloseCode)

  datatype Conn = Conn(
    federation: FederationId,
    attempt: AttemptId,
    local: EndpointIdentity,
    remote: EndpointIdentity,
    phase: Phase,
    negotiation: Option<NegotiationIds>,
    seen: seq<EnvelopeId>)
  {
    /** A negotiation is under way or finished, and not closed. */
    predicate Live() {
      phase != Idle && phase != Closed
    }
  }

  /** The calls an application or its adapter makes on a connection. */
  datatype Op =
    | BeginOffer(signer: Signer, binding: WebRtcBinding, description: seq<Bytes.byte>)
    | AnswerOffer(signer: Signer, binding: WebRtcBinding, description: seq<Bytes.byte>)
    | SendCandidate(signer: Signer, sequence: u32, candidate: seq<Bytes.byte>)
    | SendCfr(signer: Signer, payload: seq<Bytes.byte>)
    | CloseLocal(signer: Signer, reason: CloseCode)
    | Receive(envelope: Envelope)
    | TransportConnected
    | TransportFailed

  /** The state a call leaves and the result it returns. */
  datatype Step = Step(conn: Conn, result: Result<seq<Action>, Error>)

  function New(federation: FederationId, attempt: AttemptId, local: EndpointIdentity, remote: EndpointIdentity)
    : Result<Conn, Error>
  {
    if local == remote then Err(SameEndpoint)
    else Ok(Conn(federation, attempt, local, remote, Idle, None, []))
  }

  function Authored(c: Conn, signer: Signer, body: Body): Result<Envelope, Error> {
    Sign(signer, c.federation, c.attempt, c.remote, body)
  }

  function BeginOfferStep(suite: Suite, c: Conn, signer: Signer, body: Body): Step
    requires body.Offer?
  {
    if signer.endpoint != c.local then Step(c, Err(WrongLocalSigner))
    else if c.phase != Idle then Step(c, Err(InvalidState))
    else match Authored(c, signer, body)
      case Err(e) => Step(c, Err(e))
      case Ok(offer) =>
        match Id(suite, offer)
        case Err(e) => Step(c, Err(e))
        case Ok(id) =>
          Step(c.(phase := OfferSent, negotiation := Some(NegotiationIds(id, None))),
               Ok([OpenControlChannel, Send(offer)]))
  }

  function AnswerStep(suite: Suite, c: Conn, signer: Signer, binding: WebRtcBinding, description: seq<Bytes.byte>): Step {
    if signer.endpoint != c.local then Step(c, Err(WrongLocalSigner))
    else if c.phase != OfferReceived || c.negotiation.None? then Step(c, Err(InvalidState))
    else
      var offerId := c.negotiation.value.offer;
      match Authored(c, signer, Answer(offerId, binding, description))
      case Err(e) => Step(c, Err(e))
      case Ok(answer) =>
        match Id(suite, answer)
        case Err(e) => Step(c, Err(e))
        case Ok(id) =>
          Step(c.(phase := AnswerSent, negotiation := Some(NegotiationIds(offerId, Some(id)))), Ok([Send(answer)]))
  }

  function CandidateResult(c: Conn, signer: Signer, sequence: u32, candidate: seq<Bytes.byte>)
    : Result<seq<Action>, Error>
  {
    if signer.endpoint != c.local then Err(WrongLocalSigner)
    else if !c.Live() || c.negotiation.None? then Err(InvalidState)
    else
      var parent := c.negotiation.value.answer.GetOr(c.negotiation.value.offer);
      var envelope :- Authored(c, signer, Candidate(parent, sequence, candidate));
      Ok([Send(envelope)])
  }

  function CfrControlResult(c: Conn, signer: Signer, payload: seq<Bytes.byte>): Result<seq<Action>, Error> {
    if signer.endpoint != c.local then Err(WrongLocalSigner)
    else if c.phase != Established then Err(InvalidState)
    else
      var envelope :- Authored(c, signer, CfrControl(payload));
      Ok([Send(envelope)])
  }

  /** The phase moves before the close is signed, as in the source. */
  function CloseStep(c: Conn, signer: Signer, reason: CloseCode): Step {
    if signer.endpoint != c.local then Step(c, Err(WrongLocalSigner))
    else if !c.Live() then Step(c, Err(InvalidState))
    else match Authored(c, signer, Close(reason))
      case Err(e) => Step(c.(phase := Closed), Err(e))
      case Ok(envelope) => Step(c.(phase := Closed), Ok([Send(envelope)]))
  }

  function ValidateInbound(suite: Suite, c: Conn, e: Envelope): Outcome<Error> {
    if e.federation != c.federation then Fail(WrongFederation)
    else if e.attempt != c.attempt then Fail(WrongAttempt)
    else if e.sender != c.remote then Fail(WrongSender)
    else if e.recipient != c.local then Fail(WrongRecipient)
    else Verify(suite, e)
  }

  function ValidateCandidateParent(c: Conn, parent: EnvelopeId): Outcome<Error> {
    if c.negotiation.None? || !c.Live() then Fail(InvalidState)
    else if parent != c.negotiation.value.offer && c.negotiation.value.answer != Some(parent) then
      Fail(WrongCandidateParent)
    else Pass
  }

  /** A bounded first-in first-out window. */
  function NoteSeen(seen: seq<EnvelopeId>, id: EnvelopeId): seq<EnvelopeId> {
    (if |seen| == MAX_SEEN_ENVELOPES then seen[1..] else seen) + [id]
  }

  /** What an inbound body does to a connection that has not seen its id. */
  function Accept(c: Conn, id: EnvelopeId, sender: EndpointIdentity, body: Body): Step {
    match body
    case Offer(binding, description) =>
      if c.phase == OfferSent then Step(c, Err(Glare))
      else if c.phase != Idle then Step(c, Err(InvalidState))
      else Step(c.(phase := OfferReceived, negotiation := Some(NegotiationIds(id, None))),
                Ok([ApplyOffer(binding, description)]))
    case Answer(offerId, binding, description) =>
      if c.phase != OfferSent || c.negotiation.None? || c.negotiation.value.offer != offerId then
        Step(c, Err(InvalidState))
      else Step(c.(phase := AnswerReceived, negotiation := Some(NegotiationIds(offerId, Some(id)))),
                Ok([ApplyAnswer(binding, description)]))
    case Candidate(parentId, sequence, candidate) =>
      (match ValidateCandidateParent(c, parentId)
       case Fail(e) => Step(c, Err(e))
       case Pass => Step(c, Ok([AddCandidate(sequence, candidate)])))
    case Close(reason) =>
      if !c.Live() then Step(c, Err(InvalidState))
      else Step(c.(phase := Closed), Ok([CloseTransport(reason)]))
    case CfrControl(payload) =>
      if c.phase != Established then Step(c, Err(InvalidState))
      else Step(c, Ok([DeliverCfr(id, sender, payload)]))
  }

  /** The id of an envelope that passes every inbound check. */
  function InboundId(suite: Suite, c: Conn, e: Envelope): Result<EnvelopeId, Error> {
    match ValidateInbound(suite, c, e)
    case Fail(error) => Err(error)
    case Pass => Id(suite, e)
  }

  function ReceiveStep(suite: Suite, c: Conn, e: Envelope): Step {
    match InboundId(suite, c, e)
    case Err(error) => Step(c, Err(error))
    case Ok(id) =>
      if id in c.seen then Step(c, Ok([]))
      else
        var accepted := Accept(c, id, e.sender, e.body);
        if accepted.result.Err? then accepted
        else accepted.(conn := accepted.conn.(seen := NoteSeen(c.seen, id)))
  }

  function Apply(suite: Suite, c: Conn, op: Op): Step {
    match op
    case BeginOffer(signer, binding, description) => BeginOfferStep(suite, c, signer, Offer(binding, description))
    case AnswerOffer(signer, binding, description) => AnswerStep(suite, c, signer, binding, description)
    case SendCandidate(signer, sequence, candidate) => Step(c, CandidateResult(c, signer, sequence, candidate))
    case SendCfr(signer, payload) => Step(c, CfrControlResult(c, signer, payload))
    case CloseLocal(signer, reason) => CloseStep(c, signer, reason)
    case Receive(envelope) => ReceiveStep(suite, c, envelope)
    case TransportConnected =>
      if c.phase != AnswerSent && c.phase != AnswerReceived then Step(c, Err(InvalidState))
      else Step(c.(phase := Established), Ok([]))
    case TransportFailed =>
      if !c.Live() then Step(c, Err(InvalidState)) else Step(c.(phase := Closed), Ok([]))
  }

  /** The source's connection object. */
  class Connection {
    const suite: Suite
    const federation: FederationId
    const attempt: AttemptId
    const local: EndpointIdentity
    const remote: EndpointIdentity
    var phase: Phase
    var negotiation: Option<NegotiationIds>
    var seen: seq<EnvelopeId>

    function State(): Conn
      reads this
    {
      Conn(federation, attempt, local, remote, phase, negotiation, seen)
    }

    constructor (suite: Suite, federation: FederationId, attempt: AttemptId,
                 local: EndpointIdentity, remote: EndpointIdentity)
      requires local != remote
      ensures New(federation, attempt, local, remote) == Ok(State()) && this.suite == suite
    {
      this.suite := suite;
      this.federation, this.attempt, this.local, this.remote := federation, attempt, local, remote;
      phase, negotiation, seen := Idle, None, [];
    }

    method BeginOffer(signer: Signer, binding: WebRtcBinding, description: seq<Bytes.byte>)
      returns (r: Result<seq<Action>, Error>)
      modifies this
      ensures Step(State(), r) == Apply(suite, old(State()), Op.BeginOffer(signer, binding, description))
    {
      if signer.endpoint != local {
        return Err(WrongLocalSigner);
      }
      if phase != Idle {
        return Err(InvalidState);
      }
      var offer :- Sign(signer, federation, attempt, remote, Offer(binding, description));
      var id :- Id(suite, offer);
      negotiation := Some(NegotiationIds(id, None));
      phase := OfferSent;
      r := Ok([OpenControlChannel, Send(offer)]);
    }

    method AnswerOffer(signer: Signer, binding: WebRtcBinding, description: seq<Bytes.byte>)
      returns (r: Result<seq<Action>, Error>)
      modifies this
      ensures Step(State(), r) == Apply(suite, old(State()), Op.AnswerOffer(signer, binding, description))
    {
      if signer.endpoint != local {
        return Err(WrongLocalSigner);
      }
      if phase != OfferReceived {
        return Err(InvalidState);
      }
      if negotiation.None? {
        return Err(InvalidState);
      }
      var offerId := negotiation.value.offer;
      var answer :- Sign(signer, federation, attempt, remote, Answer(offerId, binding, description));
      var id :- Id(suite, answer);
      negotiation := Some(NegotiationIds(offerId, Some(id)));
      phase := AnswerSent;
      r := Ok([Send(answer)]);
    }

    method SendCandidate(signer: Signer, sequence: u32, candidate: seq<Bytes.byte>)
      returns (r: Result<seq<Action>, Error>)
      ensures Step(State(), r) == Apply(suite, State(), Op.SendCandidate(signer, sequence, candidate))
    {
      if signer.endpoint != local {
        return Err(WrongLocalSigner);
      }
      if phase !in {OfferSent, OfferReceived, AnswerSent, AnswerReceived, Established} {
        return Err(InvalidState);
      }
      if negotiation.None? {
        return Err(InvalidState);
      }
      var parent := negotiation.value.answer.GetOr(negotiation.value.offer);
      var envelope :- Sign(signer, federation, attempt, remote, Candidate(parent, sequence, candidate));
      r := Ok([Send(envelope)]);
    }

    method SendCfr(signer: Signer, payload: seq<Bytes.byte>) returns (r: Result<seq<Action>, Error>)
      ensures Step(State(), r) == Apply(suite, State(), Op.SendCfr(signer, payload))
    {
      if signer.endpoint != local {
        return Err(WrongLocalSigner);
      }
      if phase != Established {
        return Err(InvalidState);
      }
      var envelope :- Sign(signer, federation, attempt, remote, CfrControl(payload));
      r := Ok([Send(envelope)]);
    }

    method CloseLocal(signer: Signer, reason: CloseCode) returns (r: Result<seq<Action>, Error>)
      modifies this
      ensures Step(State(), r) == Apply(suite, old(State()), Op.CloseLocal(signer, reason))
    {
      if signer.endpoint != local {
        return Err(WrongLocalSigner);
      }
      if phase == Idle || phase == Closed {
        return Err(InvalidState);
      }
      phase := Closed;
      r := match Sign(signer, federation, attempt, remote, Close(reason))
           case Ok(envelope) => Ok([Send(envelope)])
           case Err(e) => Err(e);
    }

    method Receive(e: Envelope) returns (r: Result<seq<Action>, Error>)
      modifies this
      ensures Step(State(), r) == Apply(suite, old(State()), Op.Receive(e))
    {
      var id :- InboundId(suite, State(), e);
      if id in seen {
        return Ok([]);
      }
      var actions: seq<Action>;
      match e.body {
        case Offer(binding, description) =>
          if phase == OfferSent {
            return Err(Glare);
          }
          if phase != Idle {
            return Err(InvalidState);
          }
          negotiation := Some(NegotiationIds(id, None));
          phase := OfferReceived;
          actions := [ApplyOffer(binding, description)];
        case Answer(offerId, binding, description) =>
          if phase != OfferSent || negotiation.None? || negotiation.value.offer != offerId {
            return Err(InvalidState);
          }
          negotiation := Some(NegotiationIds(negotiation.value.offer, Some(id)));
          phase := AnswerReceived;
          actions := [ApplyAnswer(binding, description)];
        case Candidate(parentId, sequence, candidate) =>
          var parent := ValidateCandidateParent(State(), parentId);
          if parent.Fail? {
            return Err(parent.error);
          }
          actions := [AddCandidate(sequence, candidate)];
        case Close(reason) =>
          if phase == Idle || phase == Closed {
            return Err(InvalidState);
          }
          phase := Closed;
          actions := [CloseTransport(reason)];
        case CfrControl(payload) =>
          if phase != Established {
            return Err(InvalidState);
          }
          actions := [DeliverCfr(id, e.sender, payload)];
      }
      if |seen| == MAX_SEEN_ENVELOPES {
        seen := seen[1..];
      }
      seen := seen + [id];
      r := Ok(actions);
    }

    method TransportConnected() returns (r: Result<seq<Action>, Error>)
      modifies this
      ensures Step(State(), r) == Apply(suite, old(State()), Op.TransportConnected)
    {
      if phase !in {AnswerSent, AnswerReceived} {
        return Err(InvalidState);
      }
      phase := Established;
      r := Ok([]);
    }

    method TransportFailed() returns (r: Result<seq<Action>, Error>)
      modifies this
      ensures Step(State(), r) == Apply(suite, old(State()), Op.TransportFailed)
    {
      if phase == Idle || phase == Closed {
        return Err(InvalidState);
      }
      phase := Closed;
      r := Ok([]);
    }
  }

  /** A connection, or the error for an endpoint paired with itself. */
  method Connect(suite: Suite, federation: FederationId, attempt: AttemptId, local: EndpointIdentity, remote: EndpointIdentity)
    returns (r: Result<Connection, Error>)
    ensures match New(federation, attempt, local, remote)
            case Ok(c) => r.Ok? && fresh(r.value) && r.value.suite == suite && r.value.State() == c
            case Err(e) => r.Err? && r.error == e
  {
    if local == remote {
      return Err(SameEndpoint);
    }
    var connection := new Connection(suite, federation, attempt, local, remote);
    r := Ok(connection);
  }
}
