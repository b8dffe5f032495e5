/** Server-to-server deliveries: the signed transcript, admission and replay recording. */
module FederationDelivery {
  import opened Results
  import opened Bytes
  import opened Core

  const DOMAIN_TAG: string := "fcp-fabric/federation/delivery/v1"
  const MAX_PAYLOAD_BYTES := 65536
  const MAX_DELIVERY_LIFETIME_SECONDS := 300
  const MAX_CLOCK_SKEW_SECONDS := 60
  const NANOS := 1_000_000_000
  const HALF := 0x8000_0000_0000_0000

  /** Nanoseconds since the Unix epoch, with whole seconds in the signed 64-bit range. */
  type Moment = x: int | -HALF * NANOS <= x < HALF * NANOS
  type Uuid = x: int | 0 <= x < 0x1_0000_0000_0000_0000_0000_0000_0000_0000

  /** The bytes of a canonical name. */
  type Name = seq<byte>

  datatype FederationError =
    | SenderDomainMismatch
    | RecipientDomainMismatch
    | PayloadTooLarge
    | InvalidLifetime
    | InvalidCanonicalField
    | PeerNotActive
    | WrongDestination
    | WrongSource
    | ExpiredOrNotYetValid
    | UnexpectedAuthorityIdentity
    | Signature(error: Error)

  datatype Address = Address(localpart: Name, domain: Name) {
    function Text(): seq<byte> {
      localpart + [0x40] + domain
    }
  }

  datatype Delivery = Delivery(
    source: Name, destination: Name, sender: Address, recipient: Address, requestId: Uuid,
    issuedAt: Moment, expiresAt: Moment, payload: seq<byte>)

  /** Whole seconds, rounded down. */
  function Seconds(t: Moment): int {
    t / NANOS
  }

  function Check(d: Delivery): Outcome<FederationError> {
    var issued, expires := Seconds(d.issuedAt), Seconds(d.expiresAt);
    if d.sender.domain != d.source then Fail(SenderDomainMismatch)
    else if d.recipient.domain != d.destination then Fail(RecipientDomainMismatch)
    else if |d.payload| > MAX_PAYLOAD_BYTES then Fail(PayloadTooLarge)
    else if expires <= issued || expires - issued > MAX_DELIVERY_LIFETIME_SECONDS then Fail(InvalidLifetime)
    else Pass
  }

  // ---- The transcript ----

  function Prefixed(width: nat, value: seq<byte>): seq<byte> {
    BigEndian(width, |value|) + value
  }

  /** A signed 64-bit integer in two's complement. */
  function Signed64(x: int): seq<byte> {
    BigEndian(8, x % 0x1_0000_0000_0000_0000)
  }

  /** The four length-prefixed names in order. */
  function Names(d: Delivery): seq<byte> {
    Prefixed(1, d.source) + (Prefixed(1, d.destination) + (Prefixed(2, d.sender.Text()) + Prefixed(2, d.recipient.Text())))
  }

  /** What follows the names. */
  function Tail(d: Delivery): seq<byte> {
    BigEndian(16, d.requestId) + (Signed64(Seconds(d.issuedAt)) + (Signed64(Seconds(d.expiresAt)) + Prefixed(4, d.payload)))
  }

  function Fields(d: Delivery): seq<byte> {
    Ascii(DOMAIN_TAG) + (Names(d) + Tail(d))
  }

  predicate Writable(d: Delivery) {
    |d.source| < 0x100 && |d.destination| < 0x100 && |d.sender.Text()| < 0x1_0000 && |d.recipient.Text()| < 0x1_0000
  }

  function Transcript(d: Delivery): Result<seq<byte>, FederationError> {
    var checked := Check(d);
    if checked.Fail? then Err(checked.error)
    else if Writable(d) then Ok(Fields(d))
    else Err(InvalidCanonicalField)
  }

  method WritePrefixed(bytes: seq<byte>, width: nat, value: seq<byte>) returns (r: Result<seq<byte>, FederationError>)
    ensures r == if |value| < Capacity(width) then Ok(bytes + Prefixed(width, value)) else Err(InvalidCanonicalField)
  {
    if |value| >= Capacity(width) { return Err(InvalidCanonicalField); }
    var written := bytes + BigEndian(width, |value|);
    written := written + value;
    assert written == bytes + Prefixed(width, value);
    return Ok(written);
  }

  lemma NamesAppend(bytes: seq<byte>, d: Delivery)
    ensures bytes + Prefixed(1, d.source) + Prefixed(1, d.destination) + Prefixed(2, d.sender.Text()) + Prefixed(2, d.recipient.Text())
         == bytes + Names(d)
  {
    var w, x, y, z := Prefixed(1, d.source), Prefixed(1, d.destination), Prefixed(2, d.sender.Text()), Prefixed(2, d.recipient.Text());
    Regroup(bytes + w + x, y, z);
    Regroup(bytes + w, x, y + z);
    Regroup(bytes, w, x + (y + z));
  }

  method WriteNames(bytes: seq<byte>, d: Delivery) returns (r: Result<seq<byte>, FederationError>)
    ensures r == if Writable(d) then Ok(bytes + Names(d)) else Err(InvalidCanonicalField)
  {
    Widths();
    var written :- WritePrefixed(bytes, 1, d.source);
    written :- WritePrefixed(written, 1, d.destination);
    written :- WritePrefixed(written, 2, d.sender.Text());
    written :- WritePrefixed(written, 2, d.recipient.Text());
    NamesAppend(bytes, d);
    return Ok(written);
  }

  method WriteTail(bytes: seq<byte>, d: Delivery) returns (r: seq<byte>)
    ensures r == bytes + Tail(d)
  {
    r := bytes + BigEndian(16, d.requestId);
    r := r + Signed64(Seconds(d.issuedAt));
    r := r + Signed64(Seconds(d.expiresAt));
    r := r + BigEndian(4, |d.payload|);
    r := r + d.payload;
  }

  method WriteTranscript(d: Delivery) returns (r: Result<seq<byte>, FederationError>)
    ensures r == Transcript(d)
  {
    var checked := Check(d);
    if checked.Fail? { return Err(checked.error); }
    var bytes := Ascii(DOMAIN_TAG);
    bytes :- WriteNames(bytes, d);
    bytes := WriteTail(bytes, d);
    Regroup(Ascii(DOMAIN_TAG), Names(d), Tail(d));
    return Ok(bytes);
  }

  // ---- The transcript is injective ----

  lemma FrontEqual(a: seq<byte>, b: seq<byte>, s: seq<byte>, t: seq<byte>)
    requires |a| == |b| && a + s == b + t
    ensures a == b && s == t
  {
    assert a == (a + s)[..|a|] && b == (b + t)[..|b|];
    assert s == (a + s)[|a|..] && t == (b + t)[|b|..];
  }

  lemma PrefixedEqual(width: nat, a: seq<byte>, b: seq<byte>, s: seq<byte>, t: seq<byte>)
    requires |a| < Capacity(width) && |b| < Capacity(width)
    requires Prefixed(width, a) + s == Prefixed(width, b) + t
    ensures a == b && s == t
  {
    var la, lb := BigEndian(width, |a|), BigEndian(width, |b|);
    assert Prefixed(width, a) + s == la + (a + s) && Prefixed(width, b) + t == lb + (b + t);
    FrontEqual(la, lb, a + s, b + t);
    BigEndianInjective(width, |a|, |b|);
    FrontEqual(a, b, s, t);
  }

  lemma Signed64Injective(x: int, y: int)
    requires -HALF <= x < HALF && -HALF <= y < HALF && Signed64(x) == Signed64(y)
    ensures x == y
  {
    Widths();
    BigEndianInjective(8, x % 0x1_0000_0000_0000_0000, y % 0x1_0000_0000_0000_0000);
  }

  lemma SecondsInRange(t: Moment)
    ensures -HALF <= Seconds(t) < HALF
  {
  }

  /** Everything but the fractions of a second. */
  predicate SameDelivery(a: Delivery, b: Delivery) {
    && a.(issuedAt := b.issuedAt, expiresAt := b.expiresAt) == b
    && Seconds(a.issuedAt) == Seconds(b.issuedAt) && Seconds(a.expiresAt) == Seconds(b.expiresAt)
  }

  lemma TailInjective(a: Delivery, b: Delivery)
    requires Tail(a) == Tail(b) && |a.payload| <= MAX_PAYLOAD_BYTES && |b.payload| <= MAX_PAYLOAD_BYTES
    ensures a.requestId == b.requestId && a.payload == b.payload
    ensures Seconds(a.issuedAt) == Seconds(b.issuedAt) && Seconds(a.expiresAt) == Seconds(b.expiresAt)
  {
    FrontEqual(BigEndian(16, a.requestId), BigEndian(16, b.requestId),
               Signed64(Seconds(a.issuedAt)) + (Signed64(Seconds(a.expiresAt)) + Prefixed(4, a.payload)),
               Signed64(Seconds(b.issuedAt)) + (Signed64(Seconds(b.expiresAt)) + Prefixed(4, b.payload)));
    FrontEqual(Signed64(Seconds(a.issuedAt)), Signed64(Seconds(b.issuedAt)),
               Signed64(Seconds(a.expiresAt)) + Prefixed(4, a.payload), Signed64(Seconds(b.expiresAt)) + Prefixed(4, b.payload));
    FrontEqual(Signed64(Seconds(a.expiresAt)), Signed64(Seconds(b.expiresAt)), Prefixed(4, a.payload), Prefixed(4, b.payload));
    WideWidths();
    BigEndianInjective(16, a.requestId, b.requestId);
    SecondsInRange(a.issuedAt); SecondsInRange(b.issuedAt);
    SecondsInRange(a.expiresAt); SecondsInRange(b.expiresAt);
    Signed64Injective(Seconds(a.issuedAt), Seconds(b.issuedAt));
    Signed64Injective(Seconds(a.expiresAt), Seconds(b.expiresAt));
    Widths();
    assert Prefixed(4, a.payload) + [] == Prefixed(4, a.payload) && Prefixed(4, b.payload) + [] == Prefixed(4, b.payload);
    PrefixedEqual(4, a.payload, b.payload, [], []);
  }

  /** An address in a known domain is determined by its text. */
  lemma AddressEqual(a: Address, b: Address)
    requires a.domain == b.domain && a.Text() == b.Text()
    ensures a == b
  {
    assert a.Text() == a.localpart + ([0x40] + a.domain) && b.Text() == b.localpart + ([0x40] + b.domain);
    assert |a.localpart| == |b.localpart|;
    FrontEqual(a.localpart, b.localpart, [0x40] + a.domain, [0x40] + b.domain);
  }

  lemma NamesNest(d: Delivery, s: seq<byte>)
    ensures Names(d) + s
         == Prefixed(1, d.source) + (Prefixed(1, d.destination) + (Prefixed(2, d.sender.Text()) + (Prefixed(2, d.recipient.Text()) + s)))
  {
    var x, y, z := Prefixed(1, d.destination), Prefixed(2, d.sender.Text()), Prefixed(2, d.recipient.Text());
    Regroup(Prefixed(1, d.source), x + (y + z), s);
    Regroup(x, y + z, s);
    Regroup(y, z, s);
  }

  lemma NamesInjective(a: Delivery, b: Delivery, s: seq<byte>, t: seq<byte>)
    requires Writable(a) && Writable(b) && Names(a) + s == Names(b) + t
    ensures a.source == b.source && a.destination == b.destination && s == t
    ensures a.sender.Text() == b.sender.Text() && a.recipient.Text() == b.recipient.Text()
  {
    Widths();
    var a3, b3 := Prefixed(2, a.recipient.Text()) + s, Prefixed(2, b.recipient.Text()) + t;
    var a2, b2 := Prefixed(2, a.sender.Text()) + a3, Prefixed(2, b.sender.Text()) + b3;
    var a1, b1 := Prefixed(1, a.destination) + a2, Prefixed(1, b.destination) + b2;
    NamesNest(a, s);
    NamesNest(b, t);
    PrefixedEqual(1, a.source, b.source, a1, b1);
    PrefixedEqual(1, a.destination, b.destination, a2, b2);
    PrefixedEqual(2, a.sender.Text(), b.sender.Text(), a3, b3);
    PrefixedEqual(2, a.recipient.Text(), b.recipient.Text(), s, t);
  }

  /** Two deliveries with one transcript differ in fractions of a second only. */
  lemma TranscriptInjective(a: Delivery, b: Delivery)
    requires Transcript(a).Ok? && Transcript(a) == Transcript(b)
    ensures SameDelivery(a, b)
  {
    var tag := Ascii(DOMAIN_TAG);
    FrontEqual(tag, tag, Names(a) + Tail(a), Names(b) + Tail(b));
    NamesInjective(a, b, Tail(a), Tail(b));
    TailInjective(a, b);
    AddressEqual(a.sender, b.sender);
    AddressEqual(a.recipient, b.recipient);
  }

  // ---- Admission ----

  datatype SignedDelivery = SignedDelivery(
    delivery: Delivery, authority: EndpointIdentity, classical: ClassicalSignature, postQuantum: PostQuantumSignature)

  datatype TrustState = Pending | Active | Suspended | Revoked

  datatype PeerPolicy = PeerPolicy(localDomain: Name, remoteDomain: Name, trust: TrustState, authority: EndpointIdentity)

  function Verify(suite: Suite, s: SignedDelivery, expected: EndpointIdentity): Outcome<FederationError> {
    if s.authority != expected then Fail(UnexpectedAuthorityIdentity)
    else
      var transcript := Transcript(s.delivery);
      if transcript.Err? then Fail(transcript.error)
      else
        var checked := suite.Verify(expected, transcript.value, s.classical, s.postQuantum);
        if checked.Fail? then Fail(Signature(checked.error)) else Pass
  }

  function Admitted(suite: Suite, p: PeerPolicy, now: Moment, s: SignedDelivery): Outcome<FederationError> {
    if p.trust != Active then Fail(PeerNotActive)
    else if s.delivery.destination != p.localDomain then Fail(WrongDestination)
    else if s.delivery.source != p.remoteDomain then Fail(WrongSource)
    else if Seconds(s.delivery.issuedAt) > Seconds(now) + MAX_CLOCK_SKEW_SECONDS
            || Seconds(s.delivery.expiresAt) < Seconds(now) - MAX_CLOCK_SKEW_SECONDS then Fail(ExpiredOrNotYetValid)
    else Verify(suite, s, p.authority)
  }

  // ---- Replay recording ----

  datatype Peer = Peer(tenant: Uuid, peer: Uuid, policy: PeerPolicy)
  datatype Replay = Replay(bodyDigest: Bytes32, acceptedAt: Moment, expiresAt: Moment)
  type Replays = map<(Uuid, Uuid, Uuid), Replay>

  datatype IngressError = Rejected | Policy(error: FederationError) | InvalidReplayExpiry
  datatype IngressOutcome = Accepted | Replayed

  /** The replay rows and the answer after one inbound delivery. */
  datatype Ingress = Ingress(replays: Replays, answer: Result<IngressOutcome, IngressError>)

  /** `now` is the admission clock and `storeNow` the clock the store reads for itself. */
  function Admit(suite: Suite, replays: Replays, peer: Option<Peer>, s: SignedDelivery, now: Moment, storeNow: Moment): Ingress {
    if peer.None? then Ingress(replays, Err(Rejected))
    else
      var admitted := Admitted(suite, peer.value.policy, now, s);
      var key := (peer.value.tenant, peer.value.peer, s.delivery.requestId);
      if admitted.Fail? then Ingress(replays, Err(Policy(admitted.error)))
      else if s.delivery.expiresAt <= storeNow then Ingress(replays, Err(InvalidReplayExpiry))
      else if key in replays then Ingress(replays, Ok(Replayed))
      else
        var digest := suite.digest(Fields(s.delivery));
        Ingress(replays[key := Replay(digest, storeNow, s.delivery.expiresAt)], Ok(Accepted))
  }

  class FederationIngress {
    const suite: Suite
    var replays: Replays

    constructor (suite: Suite)
      ensures this.suite == suite && replays == map[]
    {
      this.suite := suite;
      replays := map[];
    }

    /** Inserts a row on first sight only. */
    method RecordReplay(tenant: Uuid, peer: Uuid, request: Uuid, bodyDigest: Bytes32, expiresAt: Moment, storeNow: Moment)
      returns (r: Result<bool, IngressError>)
      modifies this
      ensures var key := (tenant, peer, request);
              if expiresAt <= storeNow then r == Err(InvalidReplayExpiry) && replays == old(replays)
              else if key in old(replays) then r == Ok(false) && replays == old(replays)
              else r == Ok(true) && replays == old(replays)[key := Replay(bodyDigest, storeNow, expiresAt)]
    {
      if expiresAt <= storeNow { return Err(InvalidReplayExpiry); }
      var inserted := 0;
      if (tenant, peer, request) !in replays {
        replays := replays[(tenant, peer, request) := Replay(bodyDigest, storeNow, expiresAt)];
        inserted := 1;
      }
      return Ok(inserted == 1);
    }

    method Receive(peer: Option<Peer>, s: SignedDelivery, now: Moment, storeNow: Moment) returns (r: Result<IngressOutcome, IngressError>)
      modifies this
      ensures Ingress(replays, r) == Admit(suite, old(replays), peer, s, now, storeNow)
    {
      if peer.None? { return Err(Rejected); }
      var admitted := Admitted(suite, peer.value.policy, now, s);
      if admitted.Fail? { return Err(Policy(admitted.error)); }
      var transcript := WriteTranscript(s.delivery);
      var digest := suite.digest(transcript.value);
      var inserted := RecordReplay(peer.value.tenant, peer.value.peer, s.delivery.requestId, digest, s.delivery.expiresAt, storeNow);
      return if inserted.Err? then Err(inserted.error) else Ok(if inserted.value then Accepted else Replayed);
    }
  }

  // ---- Every run ----

  datatype Arrival = Arrival(peer: Option<Peer>, signed: SignedDelivery, now: Moment, storeNow: Moment)

  function Key(a: Arrival): (Uuid, Uuid, Uuid)
    requires a.peer.Some?
  {
    (a.peer.value.tenant, a.peer.value.peer, a.signed.delivery.requestId)
  }

  ghost predicate IsRun(suite: Suite, states: seq<Replays>, arrivals: seq<Arrival>) {
    && |states| == |arrivals| + 1 && states[0] == map[]
    && forall i | 0 <= i < |arrivals| ::
         states[i + 1] == Admit(suite, states[i], arrivals[i].peer, arrivals[i].signed, arrivals[i].now, arrivals[i].storeNow).replays
  }

  ghost predicate AcceptedAt(suite: Suite, states: seq<Replays>, arrivals: seq<Arrival>, i: nat)
    requires i < |arrivals| && i < |states|
  {
    Admit(suite, states[i], arrivals[i].peer, arrivals[i].signed, arrivals[i].now, arrivals[i].storeNow).answer == Ok(Accepted)
  }

  lemma {:induction false} ReplaysStay(suite: Suite, states: seq<Replays>, arrivals: seq<Arrival>, i: nat, j: nat, key: (Uuid, Uuid, Uuid))
    requires IsRun(suite, states, arrivals) && i <= j < |states| && key in states[i]
    ensures key in states[j] && states[j][key] == states[i][key]
    decreases j
  {
    if i < j {
      ReplaysStay(suite, states, arrivals, i, j - 1, key);
    }
  }

  /** A request of a peer of a tenant is accepted at most once. */
  lemma AcceptedOnce(suite: Suite, states: seq<Replays>, arrivals: seq<Arrival>, i: nat, j: nat)
    requires IsRun(suite, states, arrivals) && i < j < |arrivals|
    requires AcceptedAt(suite, states, arrivals, i) && AcceptedAt(suite, states, arrivals, j)
    ensures Key(arrivals[i]) != Key(arrivals[j])
  {
    ReplaysStay(suite, states, arrivals, i + 1, j, Key(arrivals[i]));
  }

  /**
   * And only when the admission clock is at most 60 seconds before issue and the store's clock at most 300 seconds
   * after it; if the store's clock is not behind the admission clock, its own reading lies between the two.
   */
  lemma AcceptedInTime(suite: Suite, states: seq<Replays>, arrivals: seq<Arrival>, i: nat)
    requires IsRun(suite, states, arrivals) && i < |arrivals| && AcceptedAt(suite, states, arrivals, i)
    ensures var a := arrivals[i]; var issued := Seconds(a.signed.delivery.issuedAt);
            && issued - 60 <= Seconds(a.now) && Seconds(a.storeNow) <= issued + 300
            && (a.now <= a.storeNow ==> issued - 60 <= Seconds(a.storeNow))
  {
    assert Check(arrivals[i].signed.delivery).Pass?;
  }

  /** The peer's authority signed this delivery, up to fractions of a second. */
  ghost predicate Unforged(suite: Suite, signed: set<Delivery>, a: Arrival) {
    a.peer.Some? && Verify(suite, a.signed, a.peer.value.policy.authority).Pass? ==>
      exists d :: d in signed && Transcript(d) == Transcript(a.signed.delivery)
  }

  /** What is accepted is what the remote authority signed for exactly this pair of domains. */
  lemma AcceptedIsGenuine(suite: Suite, states: seq<Replays>, arrivals: seq<Arrival>, i: nat, signed: set<Delivery>) returns (d: Delivery)
    requires IsRun(suite, states, arrivals) && i < |arrivals| && AcceptedAt(suite, states, arrivals, i)
    requires Unforged(suite, signed, arrivals[i])
    ensures d in signed && SameDelivery(d, arrivals[i].signed.delivery)
    ensures var p := arrivals[i].peer.value.policy;
            && p.trust == Active && d.source == p.remoteDomain && d.destination == p.localDomain
            && d.sender.domain == d.source && d.recipient.domain == d.destination && |d.payload| <= MAX_PAYLOAD_BYTES
  {
    d :| d in signed && Transcript(d) == Transcript(arrivals[i].signed.delivery);
    TranscriptInjective(d, arrivals[i].signed.delivery);
  }

  // ---- Exactly what is accepted ----

  /** The delivery stands on its own: addresses in their domains, sizes and lifetime within bounds. */
  predicate WellFormed(d: Delivery) {
    && d.sender.domain == d.source && d.recipient.domain == d.destination
    && |d.source| <= 255 && |d.destination| <= 255
    && |d.sender.localpart| + 1 + |d.sender.domain| <= 65535 && |d.recipient.localpart| + 1 + |d.recipient.domain| <= 65535
    && |d.payload| <= 65536
    && 1 <= Seconds(d.expiresAt) - Seconds(d.issuedAt) <= 300
  }

  /** Whole seconds, with a minute of tolerance at both ends. */
  predicate InTime(d: Delivery, now: Moment) {
    Seconds(d.issuedAt) <= Seconds(now) + 60 && Seconds(d.expiresAt) >= Seconds(now) - 60
  }

  /** From an active peer, between the pinned pair of domains, under the pinned authority. */
  predicate FromPeer(p: PeerPolicy, s: SignedDelivery) {
    && p.trust == Active && s.delivery.source == p.remoteDomain && s.delivery.destination == p.localDomain
    && s.authority == p.authority
  }

  /** Both signatures verify over the transcript. */
  predicate BothVerify(suite: Suite, s: SignedDelivery) {
    && suite.classical(s.authority.classical, Fields(s.delivery), s.classical).Pass?
    && suite.postQuantum(s.authority.postQuantum, Fields(s.delivery), s.postQuantum).Pass?
  }

  /** Everything that makes a delivery acceptable but its being new. */
  predicate Acceptable(suite: Suite, a: Arrival) {
    && a.peer.Some? && FromPeer(a.peer.value.policy, a.signed) && WellFormed(a.signed.delivery)
    && InTime(a.signed.delivery, a.now) && BothVerify(suite, a.signed) && a.storeNow < a.signed.delivery.expiresAt
  }

  /** The row that records an arrival. */
  function RowOf(suite: Suite, a: Arrival): Replay {
    Replay(suite.digest(Fields(a.signed.delivery)), a.storeNow, a.signed.delivery.expiresAt)
  }

  /** A delivery is accepted exactly when it is acceptable and not recorded, replayed exactly when acceptable and recorded. */
  lemma AcceptedExactly(suite: Suite, replays: Replays, a: Arrival)
    ensures var r := Admit(suite, replays, a.peer, a.signed, a.now, a.storeNow);
            && (r.answer == Ok(Accepted) <==> Acceptable(suite, a) && Key(a) !in replays)
            && (r.answer == Ok(Replayed) <==> Acceptable(suite, a) && Key(a) in replays)
            && r.replays == if r.answer == Ok(Accepted) then replays[Key(a) := RowOf(suite, a)] else replays
  {
    VerifiedExactly(suite, a.signed);
  }

  lemma VerifiedExactly(suite: Suite, s: SignedDelivery)
    ensures Transcript(s.delivery).Ok? <==> WellFormed(s.delivery)
    ensures Verify(suite, s, s.authority).Pass? <==> WellFormed(s.delivery) && BothVerify(suite, s)
  {
  }

  /** What an error says of the delivery it refuses. */
  ghost predicate Explains(suite: Suite, p: PeerPolicy, now: Moment, s: SignedDelivery, e: FederationError) {
    var d := s.delivery;
    match e
    case PeerNotActive => p.trust != Active
    case WrongDestination => d.destination != p.localDomain
    case WrongSource => d.source != p.remoteDomain
    case ExpiredOrNotYetValid => !InTime(d, now)
    case UnexpectedAuthorityIdentity => s.authority != p.authority
    case SenderDomainMismatch => d.sender.domain != d.source
    case RecipientDomainMismatch => d.recipient.domain != d.destination
    case PayloadTooLarge => |d.payload| > 65536
    case InvalidLifetime => !(1 <= Seconds(d.expiresAt) - Seconds(d.issuedAt) <= 300)
    case InvalidCanonicalField =>
      |d.source| > 255 || |d.destination| > 255 || |d.sender.Text()| > 65535 || |d.recipient.Text()| > 65535
    case Signature(_) => !BothVerify(suite, s)
  }

  /** Every refusal gives a true reason. */
  lemma RefusalsAreTrue(suite: Suite, replays: Replays, a: Arrival)
    ensures match Admit(suite, replays, a.peer, a.signed, a.now, a.storeNow).answer
            case Err(Rejected) => a.peer.None?
            case Err(Policy(e)) => a.peer.Some? && Explains(suite, a.peer.value.policy, a.now, a.signed, e)
            case Err(InvalidReplayExpiry) => a.signed.delivery.expiresAt <= a.storeNow
            case Ok(_) => true
  {
  }

  /** The arrival was accepted under this key. */
  ghost predicate AcceptedAs(suite: Suite, states: seq<Replays>, arrivals: seq<Arrival>, i: nat, key: (Uuid, Uuid, Uuid))
    requires i < |arrivals| && i < |states|
  {
    arrivals[i].peer.Some? && Key(arrivals[i]) == key && AcceptedAt(suite, states, arrivals, i)
  }

  lemma RecordedStep(suite: Suite, states: seq<Replays>, arrivals: seq<Arrival>, i: nat, key: (Uuid, Uuid, Uuid))
    requires IsRun(suite, states, arrivals) && i < |arrivals|
    ensures if AcceptedAs(suite, states, arrivals, i, key) then
              key !in states[i] && key in states[i + 1] && states[i + 1][key] == RowOf(suite, arrivals[i])
            else (key in states[i + 1] <==> key in states[i])
                 && (key in states[i] ==> states[i + 1][key] == states[i][key])
  {
    AcceptedExactly(suite, states[i], arrivals[i]);
  }

  /** A row is recorded for an accepted arrival, with the digest and times of that arrival. */
  lemma {:induction false} RecordedWasAccepted(suite: Suite, states: seq<Replays>, arrivals: seq<Arrival>, n: nat, key: (Uuid, Uuid, Uuid))
    returns (i: nat)
    requires IsRun(suite, states, arrivals) && n < |states| && key in states[n]
    ensures i < n && AcceptedAs(suite, states, arrivals, i, key) && states[n][key] == RowOf(suite, arrivals[i])
  {
    i := n - 1;
    RecordedStep(suite, states, arrivals, i, key);
    if !AcceptedAs(suite, states, arrivals, i, key) {
      i := RecordedWasAccepted(suite, states, arrivals, i, key);
    }
  }

  /** And an accepted arrival stays recorded. */
  lemma AcceptedIsRecorded(suite: Suite, states: seq<Replays>, arrivals: seq<Arrival>, i: nat, n: nat, key: (Uuid, Uuid, Uuid))
    requires IsRun(suite, states, arrivals) && i < n < |states| && AcceptedAs(suite, states, arrivals, i, key)
    ensures key in states[n] && states[n][key] == RowOf(suite, arrivals[i])
  {
    RecordedStep(suite, states, arrivals, i, key);
    ReplaysStay(suite, states, arrivals, i + 1, n, key);
  }

  /** Over a run, an acceptable delivery is accepted exactly if no delivery with its key was accepted before it. */
  lemma FirstIsAccepted(suite: Suite, states: seq<Replays>, arrivals: seq<Arrival>, n: nat)
    requires IsRun(suite, states, arrivals) && n < |arrivals| && Acceptable(suite, arrivals[n])
    ensures AcceptedAt(suite, states, arrivals, n)
       <==> forall i | 0 <= i < n :: !AcceptedAs(suite, states, arrivals, i, Key(arrivals[n]))
  {
    var key := Key(arrivals[n]);
    AcceptedExactly(suite, states[n], arrivals[n]);
    if key in states[n] {
      var i := RecordedWasAccepted(suite, states, arrivals, n, key);
    }
    forall i | 0 <= i < n && AcceptedAs(suite, states, arrivals, i, key)
      ensures key in states[n]
    {
      AcceptedIsRecorded(suite, states, arrivals, i, n, key);
    }
  }

  function Sign(signer: Signer, d: Delivery): Result<SignedDelivery, FederationError> {
    var transcript := Transcript(d);
    if transcript.Err? then Err(transcript.error)
    else Ok(SignedDelivery(d, signer.endpoint, signer.signClassical(transcript.value), signer.signPostQuantum(transcript.value)))
  }

  /** Exactly the well-formed deliveries are signed, and a peer's own delivery is acceptable while it is in time. */
  lemma GenuineIsAcceptable(suite: Suite, signer: Signer, d: Delivery, peer: Peer, now: Moment, storeNow: Moment)
    requires signer.Correct(suite) && peer.policy == PeerPolicy(d.destination, d.source, Active, signer.endpoint)
    ensures Sign(signer, d).Ok? <==> WellFormed(d)
    ensures WellFormed(d) && InTime(d, now) && storeNow < d.expiresAt ==>
              Acceptable(suite, Arrival(Some(peer), Sign(signer, d).value, now, storeNow))
  {
    assert suite.Verify(signer.endpoint, Fields(d), signer.signClassical(Fields(d)), signer.signPostQuantum(Fields(d))).Pass?;
  }
}
