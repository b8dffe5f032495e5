/**
 Two connections with swapped identities over a carrier that may drop, reorder, duplicate and replay
 anything, and may present anything it likes except a forgery: an envelope that passes a peer's inbound
 checks was signed by the other peer's connection.
 */
module Protocol {
  import Bytes
  import opened Results
  import opened Core
  import opened Envelopes
  import opened Connections
  import opened ConnectionRuns

  datatype Side = Left | Right {
    function Other(): Side {
      if Left? then Right else Left
    }
  }

  /** A connection and every envelope it has ever signed. */
  datatype Peer = Peer(conn: Conn, signed: set<Envelope>)

  datatype World = World(left: Peer, right: Peer) {
    function At(side: Side): Peer {
      if side.Left? then left else right
    }
  }

  /** A call on one side; delivery by the carrier is a `Receive` call. */
  datatype Event = Event(side: Side, op: Op)

  function Sent(result: Result<seq<Action>, Error>): set<Envelope> {
    if result.Err? then {} else set a | a in result.value && a.Send? :: a.envelope
  }

  function PeerNext(suite: Suite, p: Peer, op: Op): Peer {
    var s := Apply(suite, p.conn, op);
    Peer(s.conn, p.signed + Sent(s.result))
  }

  function Next(suite: Suite, w: World, event: Event): World {
    if event.side.Left? then w.(left := PeerNext(suite, w.left, event.op))
    else w.(right := PeerNext(suite, w.right, event.op))
  }

  /** No forgery: what passes the inbound checks of `p` was signed by `q`. */
  ghost predicate Unforged(suite: Suite, p: Peer, q: Peer, op: Op) {
    op.Receive? && ValidateInbound(suite, p.conn, op.envelope).Pass? ==> op.envelope in q.signed
  }

  ghost predicate Initial(w: World) {
    var a, b := w.left.conn, w.right.conn;
    && New(a.federation, a.attempt, a.local, a.remote) == Ok(a)
    && New(a.federation, a.attempt, a.remote, a.local) == Ok(b)
    && w.left.signed == w.right.signed == {}
  }

  /** One step of the world. */
  ghost predicate Steps(suite: Suite, w: World, e: Event, w': World) {
    Unforged(suite, w.At(e.side), w.At(e.side.Other()), e.op) && w' == Next(suite, w, e)
  }

  ghost predicate IsRun(suite: Suite, states: seq<World>, events: seq<Event>) {
    && |states| == |events| + 1
    && Initial(states[0])
    && forall i | 0 <= i < |events| :: Steps(suite, states[i], events[i], states[i + 1])
  }

  // ---- The invariant ----

  ghost predicate SentOffer(p: Peer) {
    exists e :: e in p.signed && e.body.Offer?
  }

  ghost predicate SentAnswer(p: Peer) {
    exists e :: e in p.signed && e.body.Answer?
  }

  predicate HoldsAnswer(p: Peer) {
    p.conn.negotiation.Some? && p.conn.negotiation.value.answer.Some?
  }

  /** What `p` has signed agrees with its own state. */
  ghost predicate SignedAgrees(suite: Suite, p: Peer) {
    forall e | e in p.signed ::
      && (e.body.Offer? ==>
            p.conn.negotiation.Some? && Id(suite, e) == Ok(p.conn.negotiation.value.offer))
      && (e.body.Answer? ==>
            HoldsAnswer(p) && Id(suite, e) == Ok(p.conn.negotiation.value.answer.value)
            && e.body.offerId == p.conn.negotiation.value.offer)
      && (e.body.CfrControl? ==> HoldsAnswer(p))
  }

  /** Ids that `p` did not sign itself came from envelopes `q` signed. */
  ghost predicate ReceivedAgrees(suite: Suite, p: Peer, q: Peer) {
    && (p.conn.negotiation.Some? && !SentOffer(p) ==>
          exists e :: e in q.signed && e.body.Offer? && Id(suite, e) == Ok(p.conn.negotiation.value.offer))
    && (HoldsAnswer(p) && !SentAnswer(p) ==>
          exists e :: e in q.signed && e.body.Answer? && Id(suite, e) == Ok(p.conn.negotiation.value.answer.value)
                      && e.body.offerId == p.conn.negotiation.value.offer)
  }

  ghost predicate Linked(suite: Suite, p: Peer, q: Peer) {
    && Consistent(p.conn)
    && SignedAgrees(suite, p)
    && ReceivedAgrees(suite, p, q)
    && !(SentOffer(p) && SentAnswer(p))
    && (p.conn.phase in {Idle, OfferReceived, AnswerSent} ==> !SentOffer(p))
    && (p.conn.phase in {Idle, OfferSent, OfferReceived, AnswerReceived} ==> !SentAnswer(p))
    && (p.conn.phase in {OfferSent, AnswerReceived} ==> SentOffer(p))
    && p.conn.local == q.conn.remote
  }

  ghost predicate Inv(suite: Suite, w: World) {
    Linked(suite, w.left, w.right) && Linked(suite, w.right, w.left)
  }

  /** The kinds of step as the invariant sees them: which ids, which phase, what was signed. */
  datatype Effect = Quiet | Offered(e: Envelope) | Answered(e: Envelope) | GotOffer(e: Envelope) | GotAnswer(e: Envelope)

  ghost predicate Explains(suite: Suite, effect: Effect, p: Peer, p': Peer, q: Peer) {
    && p'.conn.local == p.conn.local && p'.conn.remote == p.conn.remote
    && Consistent(p'.conn)
    && match effect
       case Quiet =>
         && p'.conn.negotiation == p.conn.negotiation
         && p.signed <= p'.signed
         && (forall e | e in p'.signed && e !in p.signed ::
               !e.body.Offer? && !e.body.Answer? && (e.body.CfrControl? ==> p.conn.phase == Established))
         && (p'.conn.phase in {p.conn.phase, Closed, Established})
       case Offered(e) =>
         && e.body.Offer? && Id(suite, e).Ok? && p'.signed == p.signed + {e}
         && p.conn.phase == Idle && p'.conn.phase == OfferSent
         && p'.conn.negotiation == Some(NegotiationIds(Id(suite, e).value, None))
       case Answered(e) =>
         && e.body.Answer? && Id(suite, e).Ok? && p'.signed == p.signed + {e}
         && p.conn.phase == OfferReceived && p'.conn.phase == AnswerSent
         && p.conn.negotiation.Some? && p.conn.negotiation.value.offer == e.body.offerId
         && p'.conn.negotiation == Some(NegotiationIds(e.body.offerId, Some(Id(suite, e).value)))
       case GotOffer(e) =>
         && e.body.Offer? && Id(suite, e).Ok? && e in q.signed && p'.signed == p.signed
         && p.conn.phase == Idle && p'.conn.phase == OfferReceived
         && p'.conn.negotiation == Some(NegotiationIds(Id(suite, e).value, None))
       case GotAnswer(e) =>
         && e.body.Answer? && Id(suite, e).Ok? && e in q.signed && p'.signed == p.signed
         && p.conn.phase == OfferSent && p'.conn.phase == AnswerReceived
         && p.conn.negotiation.Some? && p.conn.negotiation.value.offer == e.body.offerId
         && p'.conn.negotiation == Some(NegotiationIds(e.body.offerId, Some(Id(suite, e).value)))
  }

  /** A successful call that signs returns what it signed last, and nothing else to send. */
  lemma SentBy(suite: Suite, c: Conn, op: Op)
    requires !op.Receive?
    ensures var r := Apply(suite, c, op).result;
            if r.Err? || op.TransportConnected? || op.TransportFailed? then Sent(r) == {}
            else r.value != [] && r.value[|r.value| - 1].Send? && Sent(r) == {r.value[|r.value| - 1].envelope}
  {
  }

  lemma ReceiptEffect(suite: Suite, p: Peer, q: Peer, op: Op) returns (effect: Effect)
    requires Consistent(p.conn) && Unforged(suite, p, q, op) && op.Receive?
    ensures Explains(suite, effect, p, PeerNext(suite, p, op), q)
  {
    StepKeeps(suite, p.conn, op);
    assert Sent(Apply(suite, p.conn, op).result) == {};
    effect := Quiet;
    if Acts(suite, p.conn, op) {
      ActsBetween(suite, p.conn, op);
      if op.envelope.body.Offer? {
        effect := GotOffer(op.envelope);
      } else if op.envelope.body.Answer? {
        effect := GotAnswer(op.envelope);
      }
    }
  }

  /** Every call has one of the effects. */
  lemma EffectOf(suite: Suite, p: Peer, q: Peer, op: Op) returns (effect: Effect)
    requires Consistent(p.conn) && Unforged(suite, p, q, op)
    ensures Explains(suite, effect, p, PeerNext(suite, p, op), q)
  {
    if op.Receive? {
      effect := ReceiptEffect(suite, p, q, op);
    } else {
      var r := Apply(suite, p.conn, op).result;
      StepKeeps(suite, p.conn, op);
      SentBy(suite, p.conn, op);
      effect := if r.Ok? && op.BeginOffer? then Offered(r.value[1].envelope)
                else if r.Ok? && op.AnswerOffer? then Answered(r.value[0].envelope)
                else Quiet;
    }
  }

  /** Every effect at `p` keeps both directions of the invariant. */
  lemma EffectLinks(suite: Suite, effect: Effect, p: Peer, p': Peer, q: Peer)
    requires Linked(suite, p, q) && Linked(suite, q, p) && Explains(suite, effect, p, p', q)
    ensures Linked(suite, p', q) && Linked(suite, q, p')
  {
    assert SentOffer(p') <==> (SentOffer(p) || effect.Offered?) by {
      if effect.Offered? {
        assert effect.e in p'.signed;
      }
    }
    assert SentAnswer(p') <==> (SentAnswer(p) || effect.Answered?) by {
      if effect.Answered? {
        assert effect.e in p'.signed;
      }
    }
  }

  lemma StepKeepsInv(suite: Suite, w: World, event: Event, w': World)
    requires Inv(suite, w) && Steps(suite, w, event, w')
    ensures Inv(suite, w')
  {
    var p, q := w.At(event.side), w.At(event.side.Other());
    assert Unforged(suite, p, q, event.op);
    var effect := EffectOf(suite, p, q, event.op);
    EffectLinks(suite, effect, p, PeerNext(suite, p, event.op), q);
  }

  lemma {:induction false} RunInv(suite: Suite, states: seq<World>, events: seq<Event>, i: nat)
    requires IsRun(suite, states, events) && i < |states|
    ensures Inv(suite, states[i])
  {
    if i > 0 {
      var j := i - 1;
      RunInv(suite, states, events, j);
      assert Steps(suite, states[j], events[j], states[j + 1]);
      StepKeepsInv(suite, states[j], events[j], states[j + 1]);
    }
  }

  // ---- Agreement ----

  /** The statement about one state of a run, seen from `p`. */
  ghost predicate Agrees(suite: Suite, p: Peer, q: Peer) {
    // a peer that took an offer from the carrier holds the offerer's own offer id
    && (p.conn.negotiation.Some? && !SentOffer(p) ==>
          SentOffer(q) && q.conn.negotiation.Some?
          && p.conn.negotiation.value.offer == q.conn.negotiation.value.offer)
    // peers that both hold an answer id hold the same pair, one as answerer and the other as its offerer
    && (HoldsAnswer(p) && HoldsAnswer(q) ==>
          && p.conn.negotiation == q.conn.negotiation
          && SentAnswer(p) != SentAnswer(q)
          && SentOffer(p) == SentAnswer(q))
    // the peers never both answer, and never both hold an answer they received
    && !(SentAnswer(p) && SentAnswer(q))
    && !(HoldsAnswer(p) && !SentAnswer(p) && HoldsAnswer(q) && !SentAnswer(q))
    // an answer id that `p` did not sign was signed by `q` for the offer `p` made
    && (HoldsAnswer(p) && !SentAnswer(p) ==> SentOffer(p) && SentAnswer(q) && HoldsAnswer(q))
  }

  lemma LinkedAgrees(suite: Suite, p: Peer, q: Peer)
    requires Linked(suite, p, q) && Linked(suite, q, p)
    ensures Agrees(suite, p, q)
  {
  }

  /** In every state of every run the two peers agree, in both directions. */
  lemma Agreement(suite: Suite, states: seq<World>, events: seq<Event>, i: nat, side: Side)
    requires IsRun(suite, states, events) && i < |states|
    ensures Agrees(suite, states[i].At(side), states[i].At(side.Other()))
  {
    RunInv(suite, states, events, i);
    LinkedAgrees(suite, states[i].At(side), states[i].At(side.Other()));
  }

  /** Negotiated ids and signatures, once there, stay. */
  lemma {:induction false} RunGrows(suite: Suite, states: seq<World>, events: seq<Event>, i: nat, k: nat, side: Side)
    requires IsRun(suite, states, events) && i <= k < |states|
    ensures Extends(states[i].At(side).conn.negotiation, states[k].At(side).conn.negotiation)
    ensures states[i].At(side).signed <= states[k].At(side).signed
  {
    if i < k {
      RunGrows(suite, states, events, i, k - 1, side);
      RunInv(suite, states, events, k - 1);
      NextGrows(suite, states[k - 1], events[k - 1], side);
      assert states[k] == Next(suite, states[k - 1], events[k - 1]);
    }
  }

  lemma NextGrows(suite: Suite, w: World, e: Event, side: Side)
    requires Inv(suite, w)
    ensures Extends(w.At(side).conn.negotiation, Next(suite, w, e).At(side).conn.negotiation)
    ensures w.At(side).signed <= Next(suite, w, e).At(side).signed
  {
    StepKeeps(suite, w.At(side).conn, e.op);
  }

  /** When both sides offer, neither is ever established: not before, not after. */
  lemma GlareNeverEstablishes(suite: Suite, states: seq<World>, events: seq<Event>, a: nat, b: nat, k: nat, side: Side)
    requires IsRun(suite, states, events) && a < |events| && b < |events| && k < |states|
    requires events[a].side == Left && events[a].op.BeginOffer?
    requires events[b].side == Right && events[b].op.BeginOffer?
    requires Apply(suite, states[a].left.conn, events[a].op).result.Ok?
    requires Apply(suite, states[b].right.conn, events[b].op).result.Ok?
    ensures states[k].At(side).conn.phase != Established && !HoldsAnswer(states[k].At(side))
  {
    OfferStays(suite, states, events, a);
    OfferStays(suite, states, events, b);
    RunInv(suite, states, events, |events|);
    BothOffered(suite, states[|events|], side);
    if states[k].At(side).conn.phase == Established || HoldsAnswer(states[k].At(side)) {
      AnswerStays(suite, states, events, k, side);
    }
  }

  lemma OfferStays(suite: Suite, states: seq<World>, events: seq<Event>, a: nat)
    requires IsRun(suite, states, events) && a < |events| && events[a].op.BeginOffer?
    requires Apply(suite, states[a].At(events[a].side).conn, events[a].op).result.Ok?
    ensures SentOffer(states[|events|].At(events[a].side))
  {
    OfferIsSigned(suite, states, events, a);
    RunGrows(suite, states, events, a + 1, |events|, events[a].side);
  }

  lemma AnswerStays(suite: Suite, states: seq<World>, events: seq<Event>, k: nat, side: Side)
    requires IsRun(suite, states, events) && k < |states|
    requires states[k].At(side).conn.phase == Established || HoldsAnswer(states[k].At(side))
    ensures HoldsAnswer(states[|events|].At(side))
  {
    RunInv(suite, states, events, k);
    RunGrows(suite, states, events, k, |events|, side);
  }

  /** Peers that have both offered hold no answer. */
  lemma BothOffered(suite: Suite, w: World, side: Side)
    requires Inv(suite, w) && SentOffer(w.left) && SentOffer(w.right)
    ensures !HoldsAnswer(w.At(side))
  {
    LinkedAgrees(suite, w.left, w.right);
    LinkedAgrees(suite, w.right, w.left);
  }

  lemma OfferIsSigned(suite: Suite, states: seq<World>, events: seq<Event>, a: nat)
    requires IsRun(suite, states, events) && a < |events| && events[a].op.BeginOffer?
    requires Apply(suite, states[a].At(events[a].side).conn, events[a].op).result.Ok?
    ensures exists e :: e in states[a + 1].At(events[a].side).signed && e.body.Offer?
  {
    var c := states[a].At(events[a].side).conn;
    SentBy(suite, c, events[a].op);
    assert states[a + 1] == Next(suite, states[a], events[a]);
    assert Apply(suite, c, events[a].op).result.value[1].envelope in states[a + 1].At(events[a].side).signed;
  }

  // ---- Delivery ----

  /** The call that signed `e`. */
  ghost predicate SignedAt(suite: Suite, states: seq<World>, events: seq<Event>, j: nat, side: Side, e: Envelope)
    requires |states| == |events| + 1
  {
    && j < |events| && events[j].side == side
    && e in Sent(Apply(suite, states[j].At(side).conn, events[j].op).result)
  }

  lemma SignedNow(suite: Suite, w: World, event: Event, side: Side, e: Envelope)
    requires e in Next(suite, w, event).At(side).signed && e !in w.At(side).signed
    ensures event.side == side && e in Sent(Apply(suite, w.At(side).conn, event.op).result)
  {
  }

  lemma {:induction false} Provenance(suite: Suite, states: seq<World>, events: seq<Event>, i: nat, side: Side, e: Envelope)
    returns (j: nat)
    requires IsRun(suite, states, events) && i < |states| && e in states[i].At(side).signed
    ensures j < i && SignedAt(suite, states, events, j, side, e)
  {
    assert i > 0;
    j := i - 1;
    assert Steps(suite, states[j], events[j], states[j + 1]);
    if e in states[j].At(side).signed {
      j := Provenance(suite, states, events, j, side, e);
    } else {
      SignedNow(suite, states[j], events[j], side, e);
    }
  }

  lemma DeliveryNeeds(suite: Suite, c: Conn, op: Op, delivery: Action)
    requires delivery.DeliverCfr?
    requires var r := Apply(suite, c, op).result; r.Ok? && delivery in r.value
    ensures op.Receive? && ValidateInbound(suite, c, op.envelope).Pass? && op.envelope.body == CfrControl(delivery.payload)
    ensures c.phase == Established && delivery.remoteEndpoint == c.remote
  {
  }

  lemma ControlSignedBy(suite: Suite, c: Conn, op: Op, e: Envelope)
    requires e in Sent(Apply(suite, c, op).result) && e.body.CfrControl?
    ensures op.SendCfr? && op.payload == e.body.payload && c.phase == Established
  {
    if !op.Receive? {
      SentBy(suite, c, op);
    }
  }

  /**
   Every delivery to the application carries, byte for byte, a payload the remote application handed to its
   established connection earlier in the run; it names the pinned remote; and when it happens both peers
   hold the same offer and answer ids.
   */
  lemma DeliveryIsFaithful(suite: Suite, states: seq<World>, events: seq<Event>, i: nat, delivery: Action)
    requires IsRun(suite, states, events) && i < |events| && delivery.DeliverCfr?
    requires var r := Apply(suite, states[i].At(events[i].side).conn, events[i].op).result;
             r.Ok? && delivery in r.value
    ensures var me, you := states[i].At(events[i].side), states[i].At(events[i].side.Other());
            && delivery.remoteEndpoint == me.conn.remote == you.conn.local
            && HoldsAnswer(me) && me.conn.negotiation == you.conn.negotiation
    ensures exists j :: 0 <= j < i
              && events[j].side == events[i].side.Other()
              && events[j].op.SendCfr? && events[j].op.payload == delivery.payload
              && states[j].At(events[j].side).conn.phase == Established
  {
    var side, op := events[i].side, events[i].op;
    RunInv(suite, states, events, i);
    DeliveryNeeds(suite, states[i].At(side).conn, op, delivery);
    assert Steps(suite, states[i], events[i], states[i + 1]);
    assert Unforged(suite, states[i].At(side), states[i].At(side.Other()), op);
    LinkedAgrees(suite, states[i].At(side), states[i].At(side.Other()));
    var j := Provenance(suite, states, events, i, side.Other(), op.envelope);
    ControlSignedBy(suite, states[j].At(side.Other()).conn, events[j].op, op.envelope);
  }

  // ---- The protocol does establish ----

  lemma Extended(suite: Suite, states: seq<World>, events: seq<Event>, event: Event)
    returns (states': seq<World>, events': seq<Event>)
    requires IsRun(suite, states, events)
    requires var w := states[|events|]; Unforged(suite, w.At(event.side), w.At(event.side.Other()), event.op)
    ensures IsRun(suite, states', events') && |events'| == |events| + 1
    ensures states'[|events'|] == Next(suite, states[|events|], event) && states'[0] == states[0]
  {
    var w := states[|events|];
    states' := states + [Next(suite, w, event)];
    events' := events + [event];
    assert Steps(suite, w, event, Next(suite, w, event));
    forall i | 0 <= i < |events'|
      ensures Steps(suite, states'[i], events'[i], states'[i + 1])
    {
      if i < |events| { assert Steps(suite, states[i], events[i], states[i + 1]); }
    }
  }

  /** The left peer's offer is outstanding and the right peer has taken it. */
  ghost predicate OfferTaken(w: World) {
    var l, r := w.left.conn, w.right.conn;
    && l.phase == OfferSent && r.phase == OfferReceived && l.negotiation == r.negotiation && l.negotiation.Some?
    && l.seen == [] && r.federation == l.federation && r.attempt == l.attempt
    && r.local == l.remote && r.remote == l.local
  }

  /** An offer from an idle peer reaches an idle peer. */
  lemma OfferCrosses(suite: Suite, w: World, a: Signer, body: Body) returns (begin: Event, e: Envelope)
    requires a.Correct(suite) && body.Offer? && body.Valid() && w.left.conn.local == a.endpoint
    requires Initial(w)
    ensures begin.side.Left? && !begin.op.Receive? && e in Next(suite, w, begin).left.signed
    ensures var w' := Next(suite, Next(suite, w, begin), Event(Right, Receive(e)));
            OfferTaken(w') && w'.right.conn.local == w.right.conn.local
  {
    var c := w.left.conn;
    SignedVerifies(suite, a, c.federation, c.attempt, c.remote, body);
    e := Sign(a, c.federation, c.attempt, c.remote, body).value;
    begin := Event(Left, BeginOffer(a, body.binding, body.description));
    SentBy(suite, c, begin.op);
  }

  /** An answer to the outstanding offer reaches the offerer. */
  lemma AnswerCrosses(suite: Suite, w: World, b: Signer, body: Body) returns (reply: Event, e: Envelope)
    requires b.Correct(suite) && body.Answer? && body.Valid() && w.right.conn.local == b.endpoint
    requires OfferTaken(w)
    ensures reply.side.Right? && !reply.op.Receive? && e in Next(suite, w, reply).right.signed
    ensures var w' := Next(suite, Next(suite, w, reply), Event(Left, Receive(e)));
            w'.left.conn.phase == AnswerReceived && w'.right.conn.phase == AnswerSent
  {
    var c := w.right.conn;
    var bound := body.(offerId := c.negotiation.value.offer);
    SignedVerifies(suite, b, c.federation, c.attempt, c.remote, bound);
    e := Sign(b, c.federation, c.attempt, c.remote, bound).value;
    reply := Event(Right, AnswerOffer(b, body.binding, body.description));
    SentBy(suite, c, reply.op);
  }

  /** Any two endpoints with correct signers and bounded descriptions have a run that establishes both. */
  lemma HandshakeEstablishes(suite: Suite, w: World, a: Signer, b: Signer, offer: Body, answer: Body)
    returns (states: seq<World>, events: seq<Event>)
    requires Initial(w) && w.left.conn.local == a.endpoint && w.right.conn.local == b.endpoint
    requires a.Correct(suite) && b.Correct(suite)
    requires offer.Offer? && offer.Valid() && answer.Answer? && answer.Valid()
    ensures IsRun(suite, states, events) && states[0] == w
    ensures states[|events|].left.conn.phase == states[|events|].right.conn.phase == Established
  {
    var begin, o := OfferCrosses(suite, w, a, offer);
    states, events := Extended(suite, [w], [], begin);
    states, events := Extended(suite, states, events, Event(Right, Receive(o)));
    var reply, r := AnswerCrosses(suite, states[|events|], b, answer);
    states, events := Extended(suite, states, events, reply);
    states, events := Extended(suite, states, events, Event(Left, Receive(r)));
    states, events := Extended(suite, states, events, Event(Left, TransportConnected));
    states, events := Extended(suite, states, events, Event(Right, TransportConnected));
  }
}
