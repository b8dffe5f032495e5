/** What crosses between the two peers: every action traces to the call that asked for it, and every call reaches the other side. */
module ProtocolExchange {
  import Bytes
  import opened Results
  import opened Core
  import opened Envelopes
  import opened Connections
  import opened ConnectionRuns
  import opened Protocol

  // ---- What a call signs ----

  predicate Signs(op: Op) {
    op.BeginOffer? || op.AnswerOffer? || op.SendCandidate? || op.SendCfr? || op.CloseLocal?
  }

  /** The body a signing call puts in its envelope; a candidate goes under the newest description. */
  function BodyFor(c: Conn, op: Op): Body
    requires Signs(op) && (op.AnswerOffer? || op.SendCandidate? ==> c.negotiation.Some?)
  {
    match op
    case BeginOffer(_, binding, description) => Offer(binding, description)
    case AnswerOffer(_, binding, description) => Answer(c.negotiation.value.offer, binding, description)
    case SendCandidate(_, sequence, candidate) =>
      Candidate(if c.negotiation.value.answer.Some? then c.negotiation.value.answer.value else c.negotiation.value.offer,
                sequence, candidate)
    case SendCfr(_, payload) => CfrControl(payload)
    case CloseLocal(_, reason) => Close(reason)
  }

  /** The envelope carries the body under the connection's pins, with both signatures of the signer over its signed bytes. */
  ghost predicate Carries(c: Conn, signer: Signer, body: Body, e: Envelope) {
    && e.federation == c.federation && e.attempt == c.attempt && e.sender == c.local && e.recipient == c.remote
    && e.body == body && body.Valid()
    && e.classicalSignature == signer.signClassical(e.Signed()) && e.postQuantumSignature == signer.signPostQuantum(e.Signed())
  }

  /** An allowed signing call yields one envelope with its own body to send, an offer with the control channel before it. */
  lemma CallsSend(suite: Suite, c: Conn, op: Op) returns (e: Envelope)
    requires Consistent(c) && Signs(op) && Allowed(c, op)
    ensures Apply(suite, c, op).result == Ok(if op.BeginOffer? then [OpenControlChannel, Send(e)] else [Send(e)])
    ensures Carries(c, op.signer, BodyFor(c, op), e)
  {
    CallsExactly(suite, c, op);
    SignedFits(suite, c, op.signer, BodyFor(c, op));
    e := Authored(c, op.signer, BodyFor(c, op)).value;
    AuthoredCarries(c, op.signer, BodyFor(c, op));
  }

  lemma AuthoredCarries(c: Conn, signer: Signer, body: Body)
    requires body.Valid() && signer.endpoint == c.local
    ensures Authored(c, signer, body).Ok? && Carries(c, signer, body, Authored(c, signer, body).value)
  {
    var e := Authored(c, signer, body).value;
    var blank := Envelope(c.federation, c.attempt, signer.endpoint, c.remote, body,
                          seq(64, i => 0), seq(ML_DSA_65_SIGNATURE_BYTES, i => 0));
    assert e.Signed() == blank.Signed();
  }

  /** Whatever a call sends is what the call was asked to send. */
  lemma SentCarries(suite: Suite, c: Conn, op: Op, e: Envelope)
    requires Consistent(c) && e in Sent(Apply(suite, c, op).result)
    ensures Signs(op) && Allowed(c, op) && Carries(c, op.signer, BodyFor(c, op), e)
  {
    if op.Receive? {
      ReceiptExactly(suite, c, op.envelope);
      assert false;
    } else {
      CallsExactly(suite, c, op);
      var sent := CallsSend(suite, c, op);
    }
  }

  // ---- The pins of the two peers mirror each other ----

  ghost predicate Mirrored(p: Conn, q: Conn) {
    p.federation == q.federation && p.attempt == q.attempt && p.local == q.remote && p.remote == q.local
  }

  ghost predicate SamePins(c: Conn, c': Conn) {
    c.federation == c'.federation && c.attempt == c'.attempt && c.local == c'.local && c.remote == c'.remote
  }

  lemma NextPins(suite: Suite, w: World, event: Event, side: Side)
    requires Inv(suite, w)
    ensures SamePins(w.At(side).conn, Next(suite, w, event).At(side).conn)
  {
    StepKeeps(suite, w.At(side).conn, event.op);
  }

  lemma {:induction false} RunPins(suite: Suite, states: seq<World>, events: seq<Event>, n: nat, side: Side)
    requires IsRun(suite, states, events) && n < |states|
    ensures SamePins(states[0].At(side).conn, states[n].At(side).conn)
  {
    if n > 0 {
      RunPins(suite, states, events, n - 1, side);
      RunInv(suite, states, events, n - 1);
      assert Steps(suite, states[n - 1], events[n - 1], states[n]);
      NextPins(suite, states[n - 1], events[n - 1], side);
    }
  }

  /** At any two points of a run the pins of one peer are those of the other, swapped. */
  lemma RunMirrors(suite: Suite, states: seq<World>, events: seq<Event>, m: nat, n: nat, side: Side)
    requires IsRun(suite, states, events) && m < |states| && n < |states|
    ensures Mirrored(states[m].At(side).conn, states[n].At(side.Other()).conn)
  {
    RunPins(suite, states, events, m, side);
    RunPins(suite, states, events, n, side.Other());
  }

  // ---- Every action was asked for ----

  /** Actions for the adapter or the application, as opposed to envelopes to send. */
  predicate Inbound(action: Action) {
    !action.Send? && !action.OpenControlChannel?
  }

  /** The call of the remote application that an action repeats. */
  ghost predicate AskedBy(op: Op, action: Action) {
    match action
    case ApplyOffer(binding, description) => op.BeginOffer? && op.binding == binding && op.description == description
    case ApplyAnswer(binding, description) => op.AnswerOffer? && op.binding == binding && op.description == description
    case AddCandidate(sequence, candidate) => op.SendCandidate? && op.sequence == sequence && op.candidate == candidate
    case CloseTransport(reason) => op.CloseLocal? && op.reason == reason
    case DeliverCfr(_, _, payload) => op.SendCfr? && op.payload == payload
    case _ => false
  }

  lemma InboundActs(suite: Suite, c: Conn, op: Op, action: Action)
    requires Consistent(c) && Inbound(action)
    requires var r := Apply(suite, c, op).result; r.Ok? && action in r.value
    ensures op.Receive? && Pinned(suite, c, op.envelope) && Ready(c, op.envelope.body) && Id(suite, op.envelope).Ok?
    ensures Apply(suite, c, op).result == Ok([action])
    ensures action == ActionFor(Id(suite, op.envelope).value, c.remote, op.envelope.body)
  {
    if op.Receive? {
      ReceiptExactly(suite, c, op.envelope);
    } else {
      CallsExactly(suite, c, op);
      if Signs(op) {
        var e := CallsSend(suite, c, op);
      }
      assert false;
    }
  }

  /** A body signed by a call asks for that call's action. */
  lemma BodyAsks(c: Conn, op: Op, body: Body, id: EnvelopeId, sender: EndpointIdentity)
    requires Signs(op) && (op.AnswerOffer? || op.SendCandidate? ==> c.negotiation.Some?) && body == BodyFor(c, op)
    ensures AskedBy(op, ActionFor(id, sender, body))
  {
  }

  /** The call at `j` of the other side succeeded and asked for the action. */
  ghost predicate AskedAt(suite: Suite, states: seq<World>, events: seq<Event>, j: nat, side: Side, action: Action)
    requires |states| == |events| + 1
  {
    && j < |events| && events[j].side == side && AskedBy(events[j].op, action)
    && Apply(suite, states[j].At(side).conn, events[j].op).result.Ok?
  }

  /**
   Whatever a peer is told to do comes alone, and repeats an earlier successful call of the other side: an offer to
   apply its offer, an answer its answer, a candidate its candidate, a close its close, a delivery its payload.
   */
  lemma ActionsAreFaithful(suite: Suite, states: seq<World>, events: seq<Event>, i: nat, action: Action) returns (j: nat)
    requires IsRun(suite, states, events) && i < |events| && Inbound(action)
    requires var r := Apply(suite, states[i].At(events[i].side).conn, events[i].op).result; r.Ok? && action in r.value
    ensures Apply(suite, states[i].At(events[i].side).conn, events[i].op).result == Ok([action])
    ensures j < i && AskedAt(suite, states, events, j, events[i].side.Other(), action)
  {
    var side, op := events[i].side, events[i].op;
    var c := states[i].At(side).conn;
    RunInv(suite, states, events, i);
    InboundActs(suite, c, op, action);
    OnlyPinnedEnvelopesAct(suite, c, op.envelope);
    assert Steps(suite, states[i], events[i], states[i + 1]);
    j := Provenance(suite, states, events, i, side.Other(), op.envelope);
    RunInv(suite, states, events, j);
    var d := states[j].At(side.Other()).conn;
    SentCarries(suite, d, events[j].op, op.envelope);
    BodyAsks(d, events[j].op, op.envelope.body, Id(suite, op.envelope).value, c.remote);
  }

  /** Applying an offer, both peers hold its id; applying an answer, both hold the same pair. */
  lemma DescriptionsAgree(suite: Suite, states: seq<World>, events: seq<Event>, i: nat, action: Action)
    requires IsRun(suite, states, events) && i < |events| && (action.ApplyOffer? || action.ApplyAnswer?)
    requires var r := Apply(suite, states[i].At(events[i].side).conn, events[i].op).result; r.Ok? && action in r.value
    ensures var mine, yours := states[i + 1].At(events[i].side).conn.negotiation, states[i].At(events[i].side.Other()).conn.negotiation;
            && mine.Some? && yours.Some? && mine.value.offer == yours.value.offer
            && (action.ApplyAnswer? ==> mine == yours && mine.value.answer.Some?)
  {
    RunInv(suite, states, events, i);
    assert Steps(suite, states[i], events[i], states[i + 1]);
    AppliedPhase(suite, states[i], events[i], states[i + 1], action);
    RunInv(suite, states, events, i + 1);
    LinkedAgrees(suite, states[i + 1].At(events[i].side), states[i + 1].At(events[i].side.Other()));
  }

  lemma AppliedPhase(suite: Suite, w: World, event: Event, w': World, action: Action)
    requires Inv(suite, w) && w' == Next(suite, w, event) && (action.ApplyOffer? || action.ApplyAnswer?)
    requires var r := Apply(suite, w.At(event.side).conn, event.op).result; r.Ok? && action in r.value
    ensures w'.At(event.side).conn.phase == if action.ApplyOffer? then OfferReceived else AnswerReceived
    ensures w'.At(event.side.Other()) == w.At(event.side.Other())
  {
    InboundActs(suite, w.At(event.side).conn, event.op, action);
    ActsBetween(suite, w.At(event.side).conn, event.op);
  }

  // ---- Every call reaches the other side ----

  /** What a correct signer's call sends passes the other peer's checks, at that point of the run and at every other. */
  lemma CarriedIsPinned(suite: Suite, c: Conn, d: Conn, signer: Signer, body: Body, e: Envelope)
    requires Mirrored(c, d) && signer.Correct(suite) && signer.endpoint == c.local && Carries(c, signer, body, e)
    ensures Pinned(suite, d, e)
  {
  }

  /**
   At any point of a run, a call that is allowed on one side and whose body the other side is ready for yields an envelope
   that the other side, now or at any point where it is ready, turns into exactly the action the call asked for, once.
   */
  lemma CallsCross(suite: Suite, states: seq<World>, events: seq<Event>, m: nat, n: nat, side: Side, op: Op) returns (e: Envelope)
    requires IsRun(suite, states, events) && m < |states| && n < |states| && Signs(op)
    requires Allowed(states[m].At(side).conn, op) && op.signer.Correct(suite)
    ensures var c, d := states[m].At(side).conn, states[n].At(side.Other()).conn;
            && Consistent(c) && Send(e) in Apply(suite, c, op).result.value && e.body == BodyFor(c, op)
            && Id(suite, e).Ok? && var id := Id(suite, e).value;
               (Ready(d, e.body) ==>
                  && Apply(suite, d, Receive(e)).result == Ok(if id in d.seen then [] else [ActionFor(id, d.remote, e.body)])
                  && AskedBy(op, ActionFor(id, d.remote, e.body)))
  {
    var c, d := states[m].At(side).conn, states[n].At(side.Other()).conn;
    RunInv(suite, states, events, m);
    e := CallsSend(suite, c, op);
    RunMirrors(suite, states, events, m, n, side);
    CarriedIsPinned(suite, c, d, op.signer, BodyFor(c, op), e);
    ReceiptExactly(suite, d, e);
    BodyAsks(c, op, e.body, Id(suite, e).value, d.remote);
  }

  /** A candidate signed while the other peer knows at least the sender's ids is added there, sequence and bytes unchanged. */
  lemma CandidatesCross(suite: Suite, states: seq<World>, events: seq<Event>, n: nat, side: Side, op: Op) returns (e: Envelope)
    requires IsRun(suite, states, events) && n < |states| && op.SendCandidate? && op.signer.Correct(suite)
    requires Allowed(states[n].At(side).conn, op) && states[n].At(side.Other()).conn.Live()
    requires Extends(states[n].At(side).conn.negotiation, states[n].At(side.Other()).conn.negotiation)
    ensures var c, d := states[n].At(side).conn, states[n].At(side.Other()).conn;
            && Apply(suite, c, op).result == Ok([Send(e)]) && Id(suite, e).Ok?
            && Apply(suite, d, Receive(e)).result
               == Ok(if Id(suite, e).value in d.seen then [] else [AddCandidate(op.sequence, op.candidate)])
  {
    RunInv(suite, states, events, n);
    e := CallsCross(suite, states, events, n, n, side, op);
    var sent := CallsSend(suite, states[n].At(side).conn, op);
  }

  /** Between two established peers every bounded payload is delivered, byte for byte. */
  lemma ControlCrosses(suite: Suite, states: seq<World>, events: seq<Event>, n: nat, side: Side, op: Op) returns (e: Envelope)
    requires IsRun(suite, states, events) && n < |states| && op.SendCfr? && op.signer.Correct(suite)
    requires Allowed(states[n].At(side).conn, op) && states[n].At(side.Other()).conn.phase == Established
    ensures var c, d := states[n].At(side).conn, states[n].At(side.Other()).conn;
            && Apply(suite, c, op).result == Ok([Send(e)]) && Id(suite, e).Ok?
            && Apply(suite, d, Receive(e)).result
               == Ok(if Id(suite, e).value in d.seen then [] else [DeliverCfr(Id(suite, e).value, c.local, op.payload)])
  {
    RunInv(suite, states, events, n);
    e := CallsCross(suite, states, events, n, n, side, op);
    var sent := CallsSend(suite, states[n].At(side).conn, op);
    RunMirrors(suite, states, events, n, n, side);
  }
}
