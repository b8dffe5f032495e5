/** What holds in every run of one connection, whatever calls are made on it. */
module ConnectionRuns {
  import opened Results
  import opened Core
  import opened Envelopes
  import opened Connections

  /** The state after the calls `ops`, starting from `c`. */
  function After(suite: Suite, c: Conn, ops: seq<Op>): Conn {
    if ops == [] then c
    else Apply(suite, After(suite, c, ops[..|ops| - 1]), ops[|ops| - 1]).conn
  }

  /** A received envelope is acted on when its receipt yields an action. */
  predicate Acts(suite: Suite, c: Conn, op: Op) {
    op.Receive? && var r := Apply(suite, c, op).result; r.Ok? && r.value != []
  }

  /** The ids acted on during a run, in order. */
  function Accepted(suite: Suite, c: Conn, ops: seq<Op>): seq<EnvelopeId> {
    if ops == [] then []
    else
      var before := ops[..|ops| - 1];
      var op := ops[|ops| - 1];
      Accepted(suite, c, before)
      + if Acts(suite, After(suite, c, before), op) then [InboundId(suite, After(suite, c, before), op.envelope).value]
        else []
  }

  // ---- Phases ----

  function Rank(p: Phase): nat {
    match p
    case Idle => 0
    case OfferSent => 1
    case OfferReceived => 1
    case AnswerSent => 2
    case AnswerReceived => 2
    case Established => 3
    case Closed => 4
  }

  /** The negotiation ids that go with each phase. */
  ghost predicate Consistent(c: Conn) {
    match c.phase
    case Idle => c.negotiation.None?
    case OfferSent => c.negotiation.Some? && c.negotiation.value.answer.None?
    case OfferReceived => c.negotiation.Some? && c.negotiation.value.answer.None?
    case AnswerSent => c.negotiation.Some? && c.negotiation.value.answer.Some?
    case AnswerReceived => c.negotiation.Some? && c.negotiation.value.answer.Some?
    case Established => c.negotiation.Some? && c.negotiation.value.answer.Some?
    case Closed => c.negotiation.Some?
  }

  /** Ids once agreed are kept: the offer for good, the answer for good once there is one. */
  ghost predicate Extends(before: Option<NegotiationIds>, after: Option<NegotiationIds>) {
    before.Some? ==>
      && after.Some?
      && after.value.offer == before.value.offer
      && (before.value.answer.Some? ==> after.value.answer == before.value.answer)
  }

  ghost predicate Keeps(c: Conn, s: Step) {
    && Consistent(s.conn)
    && (s.conn.phase != c.phase ==> Rank(s.conn.phase) > Rank(c.phase))
    && s.conn.(phase := c.phase, negotiation := c.negotiation, seen := c.seen) == c
    && Extends(c.negotiation, s.conn.negotiation)
    && (s.result.Err? ==> s.conn == c)
  }

  lemma ReceiveKeeps(suite: Suite, c: Conn, e: Envelope)
    requires Consistent(c)
    ensures Keeps(c, ReceiveStep(suite, c, e))
  {
    var id := InboundId(suite, c, e);
    if id.Ok? && id.value !in c.seen {
      assert Keeps(c, Accept(c, id.value, e.sender, e.body));
    }
  }

  /**
   One call: ids keep matching the phase, a phase change climbs, the pins never move, ids are only extended,
   and a failing call changes nothing (`close`, which moves the phase before signing, included).
   */
  lemma StepKeeps(suite: Suite, c: Conn, op: Op)
    requires Consistent(c)
    ensures Keeps(c, Apply(suite, c, op))
  {
    if op.Receive? {
      ReceiveKeeps(suite, c, op.envelope);
    } else if op.CloseLocal? {
      assert Sign(op.signer, c.federation, c.attempt, c.remote, Close(op.reason)).Ok?;
    }
  }

  lemma {:induction false} RunKeeps(suite: Suite, c: Conn, ops: seq<Op>, i: nat)
    requires Consistent(c) && i <= |ops|
    ensures var mid := After(suite, c, ops[..i]);
            var end := After(suite, c, ops);
            && Consistent(end)
            && Rank(mid.phase) <= Rank(end.phase)
            && (Rank(mid.phase) == Rank(end.phase) ==> mid.phase == end.phase)
            && Extends(mid.negotiation, end.negotiation)
            && end.(phase := c.phase, negotiation := c.negotiation, seen := c.seen) == c
    decreases |ops|
  {
    if i == |ops| {
      assert ops[..i] == ops;
      if i > 0 {
        RunKeeps(suite, c, ops[..i - 1], i - 1);
        StepKeeps(suite, After(suite, c, ops[..i - 1]), ops[i - 1]);
      }
    } else {
      var before := ops[..|ops| - 1];
      RunKeeps(suite, c, before, i);
      assert before[..i] == ops[..i];
      StepKeeps(suite, After(suite, c, before), ops[|ops| - 1]);
    }
  }

  /** How many calls of a run change the phase. */
  function PhaseChanges(suite: Suite, c: Conn, ops: seq<Op>): nat {
    if ops == [] then 0
    else
      var before := ops[..|ops| - 1];
      PhaseChanges(suite, c, before)
      + if After(suite, c, before).phase == After(suite, c, ops).phase then 0 else 1
  }

  /** A connection changes phase at most four times in its life. */
  lemma {:induction false} AtMostFourPhaseChanges(suite: Suite, c: Conn, ops: seq<Op>)
    requires Consistent(c)
    ensures PhaseChanges(suite, c, ops) <= Rank(After(suite, c, ops).phase) - Rank(c.phase) <= 4
  {
    if ops != [] {
      var before := ops[..|ops| - 1];
      AtMostFourPhaseChanges(suite, c, before);
      RunKeeps(suite, c, before, |before|);
      StepKeeps(suite, After(suite, c, before), ops[|ops| - 1]);
    }
  }

  // ---- Replay ----

  /** The most recent entries of a history that fit the replay window. */
  function Recent(ids: seq<EnvelopeId>): seq<EnvelopeId> {
    if |ids| <= MAX_SEEN_ENVELOPES then ids else ids[|ids| - MAX_SEEN_ENVELOPES..]
  }

  /** Ids at most a window apart are distinct. */
  ghost predicate LocallyDistinct(ids: seq<EnvelopeId>) {
    forall i, j | 0 <= i < j < |ids| && j - i <= MAX_SEEN_ENVELOPES :: ids[i] != ids[j]
  }

  lemma ActsNotes(suite: Suite, c: Conn, op: Op)
    ensures var s := Apply(suite, c, op);
            if Acts(suite, c, op) then
              var id := InboundId(suite, c, op.envelope);
              id.Ok? && id.value !in c.seen && s.conn.seen == NoteSeen(c.seen, id.value)
            else s.conn.seen == c.seen
  {
  }

  lemma RecentExtends(ids: seq<EnvelopeId>, id: EnvelopeId)
    requires LocallyDistinct(ids) && id !in Recent(ids)
    ensures NoteSeen(Recent(ids), id) == Recent(ids + [id])
    ensures LocallyDistinct(ids + [id])
  {
    forall i | 0 <= i < |ids| && |ids| - i <= MAX_SEEN_ENVELOPES
      ensures ids[i] != id
    {
      assert ids[i] == Recent(ids)[i - (|ids| - |Recent(ids)|)];
    }
  }

  /**
   The deque refines the full history: it is always the last 1024 accepted ids, and any two acceptances of
   one id are more than 1024 acceptances apart.
   */
  lemma {:induction false} WindowIsRecentHistory(suite: Suite, c: Conn, ops: seq<Op>)
    requires c.seen == []
    ensures After(suite, c, ops).seen == Recent(Accepted(suite, c, ops))
    ensures LocallyDistinct(Accepted(suite, c, ops))
  {
    if ops != [] {
      var before, op := ops[..|ops| - 1], ops[|ops| - 1];
      WindowIsRecentHistory(suite, c, before);
      ActsNotes(suite, After(suite, c, before), op);
      if Acts(suite, After(suite, c, before), op) {
        RecentExtends(Accepted(suite, c, before), InboundId(suite, After(suite, c, before), op.envelope).value);
      } else {
        assert Accepted(suite, c, ops) == Accepted(suite, c, before);
      }
    }
  }

  /**
   The finite window decides replays of control traffic exactly: a verified control envelope reaching an
   established connection is delivered if and only if its id is not among the last 1024 accepted.
   */
  lemma ControlReplayIsDecidedByTheWindow(suite: Suite, c: Conn, ops: seq<Op>, e: Envelope)
    requires c.seen == [] && e.body.CfrControl?
    requires var now := After(suite, c, ops); now.phase == Established && ValidateInbound(suite, now, e).Pass?
    ensures var now := After(suite, c, ops);
            var id := InboundId(suite, now, e);
            && id.Ok?
            && Apply(suite, now, Receive(e)).result
               == Ok(if id.value in Recent(Accepted(suite, c, ops)) then []
                     else [DeliverCfr(id.value, now.remote, e.body.payload)])
  {
    WindowIsRecentHistory(suite, c, ops);
    ValidFits(e);
  }

  /** The envelope is for this connection, and both its signatures verify under the pinned remote. */
  ghost predicate Pinned(suite: Suite, c: Conn, e: Envelope) {
    && e.federation == c.federation && e.attempt == c.attempt && e.sender == c.remote && e.recipient == c.local
    && e.body.Valid() && suite.Verify(c.remote, e.Signed(), e.classicalSignature, e.postQuantumSignature).Pass?
  }

  /** A candidate names the offer or the answer of the negotiation under way. */
  ghost predicate ParentKnown(c: Conn, e: Envelope) {
    e.body.Candidate? ==>
      c.Live() && c.negotiation.Some?
      && (e.body.parentId == c.negotiation.value.offer || c.negotiation.value.answer == Some(e.body.parentId))
  }

  /** Anything else than a pinned, verified envelope is refused and changes nothing. */
  lemma OnlyPinnedEnvelopesAct(suite: Suite, c: Conn, e: Envelope)
    ensures var s := Apply(suite, c, Receive(e));
            && (Pinned(suite, c, e) <==> ValidateInbound(suite, c, e).Pass?)
            && (!Pinned(suite, c, e) ==> s.result.Err? && s.conn == c)
            && (Acts(suite, c, Receive(e)) ==> ParentKnown(c, e))
  {
    ValidFits(e);
  }

  /** The phases around an envelope that is acted on. */
  lemma ActsBetween(suite: Suite, c: Conn, op: Op)
    requires Acts(suite, c, op)
    ensures var after := Apply(suite, c, op).conn.phase;
            match op.envelope.body
            case Offer(_, _) => c.phase == Idle && after == OfferReceived
            case Answer(_, _, _) => c.phase == OfferSent && after == AnswerReceived
            case Close(_) => c.Live() && after == Closed
            case _ => after == c.phase
  {
  }

  /** Offers, answers and closes are acted on at most once in the whole life of a connection, however old the replay. */
  lemma NegotiationActsOnce(suite: Suite, c: Conn, ops: seq<Op>, i: nat, j: nat)
    requires Consistent(c) && i < j < |ops|
    requires Acts(suite, After(suite, c, ops[..i]), ops[i]) && Acts(suite, After(suite, c, ops[..j]), ops[j])
    ensures ops[i].envelope.body.Kind() == ops[j].envelope.body.Kind() ==>
              ops[i].envelope.body.Candidate? || ops[i].envelope.body.CfrControl?
  {
    var reached := ops[..j];
    assert reached[..i + 1] == ops[..i + 1] && ops[..i + 1][..i] == ops[..i];
    RunKeeps(suite, c, reached, i + 1);
    ActsBetween(suite, After(suite, c, ops[..i]), ops[i]);
    ActsBetween(suite, After(suite, c, reached), ops[j]);
  }

  // ---- Exactly what each call does ----

  /** The phase and ids under which a body is taken. */
  ghost predicate Ready(c: Conn, body: Body) {
    match body
    case Offer(_, _) => c.phase == Idle
    case Answer(offerId, _, _) => c.phase == OfferSent && c.negotiation.Some? && c.negotiation.value.offer == offerId
    case Candidate(parentId, _, _) =>
      c.Live() && c.negotiation.Some?
      && (c.negotiation.value.offer == parentId || c.negotiation.value.answer == Some(parentId))
    case Close(_) => c.Live()
    case CfrControl(_) => c.phase == Established
  }

  /** What the adapter is told to do about a body. */
  function ActionFor(id: EnvelopeId, sender: EndpointIdentity, body: Body): Action {
    match body
    case Offer(binding, description) => ApplyOffer(binding, description)
    case Answer(_, binding, description) => ApplyAnswer(binding, description)
    case Candidate(_, sequence, candidate) => AddCandidate(sequence, candidate)
    case Close(reason) => CloseTransport(reason)
    case CfrControl(payload) => DeliverCfr(id, sender, payload)
  }

  /** The ids after a body with this id is taken. */
  function IdsAfter(c: Conn, id: EnvelopeId, body: Body): Option<NegotiationIds> {
    match body
    case Offer(_, _) => Some(NegotiationIds(id, None))
    case Answer(offerId, _, _) => Some(NegotiationIds(offerId, Some(id)))
    case _ => c.negotiation
  }

  /**
   A receipt acts exactly when the envelope is pinned, new and fits the phase, and then yields the one action its body
   asks for. A pinned replay yields nothing; everything else is an error; neither changes anything. Of the errors on a
   new pinned envelope, glare is the answer to an offer that meets an own offer, and to nothing else.
   */
  lemma ReceiptExactly(suite: Suite, c: Conn, e: Envelope)
    ensures var s := Apply(suite, c, Receive(e));
            if !Pinned(suite, c, e) then s.result.Err? && s.conn == c
            else
              && Id(suite, e).Ok?
              && var id := Id(suite, e).value;
                 if id in c.seen then s == Step(c, Ok([]))
                 else if Ready(c, e.body) then
                   && s.result == Ok([ActionFor(id, c.remote, e.body)])
                   && s.conn.negotiation == IdsAfter(c, id, e.body)
                 else
                   && s.result.Err? && s.conn == c
                   && (s.result == Err(Glare) <==> e.body.Offer? && c.phase == OfferSent)
                   && (s.result == Err(WrongCandidateParent) <==> e.body.Candidate? && c.Live() && c.negotiation.Some?)
  {
    ValidFits(e);
    OnlyPinnedEnvelopesAct(suite, c, e);
  }

  /** When a call other than a receipt is allowed. */
  ghost predicate Allowed(c: Conn, op: Op) {
    match op
    case BeginOffer(signer, binding, description) =>
      signer.endpoint == c.local && c.phase == Idle && |description| <= MAX_DESCRIPTION_BYTES
    case AnswerOffer(signer, binding, description) =>
      signer.endpoint == c.local && c.phase == OfferReceived && |description| <= MAX_DESCRIPTION_BYTES
    case SendCandidate(signer, sequence, candidate) =>
      signer.endpoint == c.local && c.Live() && |candidate| <= MAX_CANDIDATE_BYTES
    case SendCfr(signer, payload) =>
      signer.endpoint == c.local && c.phase == Established && |payload| <= MAX_CFR_CONTROL_BYTES
    case CloseLocal(signer, reason) => signer.endpoint == c.local && c.Live()
    case TransportConnected => c.phase == AnswerSent || c.phase == AnswerReceived
    case TransportFailed => c.Live()
    case Receive(_) => false
  }

  /** The phase an allowed call leaves. */
  function PhaseAfter(c: Conn, op: Op): Phase {
    match op
    case BeginOffer(_, _, _) => OfferSent
    case AnswerOffer(_, _, _) => AnswerSent
    case CloseLocal(_, _) => Closed
    case TransportConnected => Established
    case TransportFailed => Closed
    case _ => c.phase
  }

  /** A call succeeds exactly when it is allowed, and then leaves the phase that goes with it. */
  lemma CallsExactly(suite: Suite, c: Conn, op: Op)
    requires Consistent(c) && !op.Receive?
    ensures var s := Apply(suite, c, op);
            && (s.result.Ok? <==> Allowed(c, op))
            && (s.result.Ok? ==> s.conn.phase == PhaseAfter(c, op))
  {
    match op
    case BeginOffer(signer, binding, description) => SignedFits(suite, c, signer, Offer(binding, description));
    case AnswerOffer(signer, binding, description) =>
      if c.phase == OfferReceived {
        SignedFits(suite, c, signer, Answer(c.negotiation.value.offer, binding, description));
      }
    case _ =>
  }

  /** Exactly the bounded bodies are signed, and what is signed has an id. */
  lemma SignedFits(suite: Suite, c: Conn, signer: Signer, body: Body)
    ensures Authored(c, signer, body).Ok? <==> body.Valid()
    ensures body.Valid() ==> Id(suite, Authored(c, signer, body).value).Ok?
  {
    if body.Valid() {
      ValidFits(Authored(c, signer, body).value);
    }
  }

  /** The call ends the attempt: a local close, a transport failure, or a close the remote sent. */
  ghost predicate Ends(suite: Suite, c: Conn, op: Op) {
    && Apply(suite, c, op).result.Ok?
    && (op.CloseLocal? || op.TransportFailed? || (Acts(suite, c, op) && op.envelope.body.Close?))
  }

  lemma EndsClosed(suite: Suite, c: Conn, op: Op)
    requires Consistent(c) && Ends(suite, c, op)
    ensures Apply(suite, c, op).conn.phase == Closed
  {
    if op.Receive? {
      ActsBetween(suite, c, op);
    } else {
      CallsExactly(suite, c, op);
    }
  }

  /** On a closed connection no call succeeds, but for replays, which yield nothing. */
  lemma ClosedIsInert(suite: Suite, c: Conn, op: Op)
    requires c.phase == Closed
    ensures var s := Apply(suite, c, op); s.conn == c && (s.result.Err? || s.result == Ok([]))
  {
    if op.Receive? {
      ReceiptExactly(suite, c, op.envelope);
    }
  }

  /** Once a call has ended the attempt, it stays closed and no later call of the run yields any action. */
  lemma EndedIsFinal(suite: Suite, c: Conn, ops: seq<Op>, i: nat, j: nat)
    requires Consistent(c) && i < j < |ops| && Ends(suite, After(suite, c, ops[..i]), ops[i])
    ensures var late := After(suite, c, ops[..j]);
            && late.phase == Closed
            && var r := Apply(suite, late, ops[j]).result; r.Err? || r.value == []
  {
    var reached, early := ops[..j], After(suite, c, ops[..i]);
    assert reached[..i] == ops[..i] && reached[..i + 1] == ops[..i + 1] && ops[..i + 1][..i] == ops[..i];
    RunKeeps(suite, c, ops[..i], i);
    EndsClosed(suite, early, ops[i]);
    RunKeeps(suite, c, reached, i + 1);
    ClosedIsInert(suite, After(suite, c, reached), ops[j]);
  }
}
