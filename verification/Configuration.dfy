/** Signed federation configurations: encoding, the offset parser, and that they are inverse. */
module Configurations {
  import opened Results
  import opened Bytes
  import opened Core

  const FEDERATION_CONFIG_MARKER: seq<byte> := [0x46, 0x43, 0x46, 0x47]
  const FEDERATION_CONFIG_VERSION: byte := 1
  const MAX_FEDERATION_MEMBERS := 1024
  const MEMBER_BYTES := 32 + IDENTITY_BYTES
  const FIXED_HEADER_BYTES := 4 + 1 + 32 + IDENTITY_BYTES + 8 + 2
  const SIGNATURE_BYTES := 64 + ML_DSA_65_SIGNATURE_BYTES

  datatype Member = Member(cfrIdentity: Bytes32, endpoint: EndpointIdentity) {
    function Bytes(): (r: seq<byte>)
      ensures |r| == MEMBER_BYTES
    {
      cfrIdentity + endpoint.Bytes()
    }
  }

  datatype Configuration = Configuration(
    federation: FederationId, authority: EndpointIdentity, epoch: u64, members: seq<Member>)
  {
    /** Every identity and every endpoint occurs once. */
    predicate Distinct() {
      forall i, j | 0 <= i < j < |members| ::
        members[i].cfrIdentity != members[j].cfrIdentity && members[i].endpoint != members[j].endpoint
    }

    predicate Valid() {
      |members| <= MAX_FEDERATION_MEMBERS && Distinct()
    }

    function Header(): (r: seq<byte>)
      ensures |r| == FIXED_HEADER_BYTES
    {
      FEDERATION_CONFIG_MARKER + [FEDERATION_CONFIG_VERSION] + federation + authority.Bytes()
      + BigEndian(8, epoch) + BigEndian(2, |members|)
    }

    /** The bytes both signatures cover. */
    function Signed(): seq<byte> {
      Header() + MembersBytes(members)
    }
  }

  function MembersBytes(members: seq<Member>): (r: seq<byte>)
    ensures |r| == |members| * MEMBER_BYTES
  {
    if members == [] then [] else MembersBytes(members[..|members| - 1]) + members[|members| - 1].Bytes()
  }

  // ---- Validation ----

  function Check(c: Configuration): Outcome<Error> {
    if |c.members| > MAX_FEDERATION_MEMBERS then Fail(TooManyFederationMembers)
    else if !c.Distinct() then Fail(DuplicateFederationMember)
    else Pass
  }

  method Validate(c: Configuration) returns (r: Outcome<Error>)
    ensures r == Check(c)
  {
    if |c.members| > MAX_FEDERATION_MEMBERS { return Fail(TooManyFederationMembers); }
    var identities: set<Bytes32>, endpoints: set<EndpointIdentity> := {}, {};
    for k := 0 to |c.members|
      invariant identities == set i | 0 <= i < k :: c.members[i].cfrIdentity
      invariant endpoints == set i | 0 <= i < k :: c.members[i].endpoint
      invariant forall i, j | 0 <= i < j < k ::
        c.members[i].cfrIdentity != c.members[j].cfrIdentity && c.members[i].endpoint != c.members[j].endpoint
    {
      var member := c.members[k];
      if member.cfrIdentity in identities || member.endpoint in endpoints { return Fail(DuplicateFederationMember); }
      identities := identities + {member.cfrIdentity};
      endpoints := endpoints + {member.endpoint};
    }
    return Pass;
  }

  // ---- Signing and encoding ----

  datatype SignedConfiguration = SignedConfiguration(
    configuration: Configuration, classicalSignature: ClassicalSignature, postQuantumSignature: PostQuantumSignature)
  {
    function Wire(): seq<byte> {
      configuration.Signed() + (classicalSignature + postQuantumSignature)
    }
  }

  function SignedBytes(c: Configuration): Result<seq<byte>, Error> {
    var checked := Check(c);
    if checked.Fail? then Err(checked.error) else Ok(c.Signed())
  }

  /** Appends the snapshot field by field; the member count always fits its two bytes. */
  method WriteSigned(c: Configuration) returns (r: Result<seq<byte>, Error>)
    ensures r == SignedBytes(c)
  {
    var checked := Validate(c);
    if checked.Fail? { return Err(checked.error); }
    var bytes := FEDERATION_CONFIG_MARKER;
    bytes := bytes + [FEDERATION_CONFIG_VERSION];
    bytes := bytes + c.federation;
    bytes := bytes + (c.authority.classical + c.authority.postQuantum);
    bytes := bytes + BigEndian(8, c.epoch);
    bytes := bytes + BigEndian(2, |c.members|);
    assert bytes == c.Header();
    assert c.members[..0] == [];
    for k := 0 to |c.members|
      invariant bytes == c.Header() + MembersBytes(c.members[..k])
    {
      assert c.members[..k + 1][..k] == c.members[..k];
      bytes := bytes + (c.members[k].cfrIdentity + c.members[k].endpoint.Bytes());
    }
    assert c.members[..|c.members|] == c.members;
    return Ok(bytes);
  }

  function Encode(s: SignedConfiguration): Result<seq<byte>, Error> {
    var checked := Check(s.configuration);
    if checked.Fail? then Err(checked.error) else Ok(s.Wire())
  }

  function ClassicalError(e: Error): Error {
    if e == BadSenderKey then BadConfigurationAuthority
    else if e == BadSignature then BadConfigurationSignature
    else e
  }

  function PostQuantumError(e: Error): Error {
    if e == BadPostQuantumKey then BadConfigurationAuthority
    else if e == BadPostQuantumSignature || e == BadPostQuantumSignatureEncoding then BadConfigurationSignature
    else e
  }

  function CheckSignatures(suite: Suite, who: EndpointIdentity, message: seq<byte>, c: ClassicalSignature, pq: PostQuantumSignature)
    : (r: Outcome<Error>)
    ensures r.Pass? <==> suite.Verify(who, message, c, pq).Pass?
  {
    var first := suite.classical(who.classical, message, c);
    if first.Fail? then Fail(ClassicalError(first.error))
    else
      var second := suite.postQuantum(who.postQuantum, message, pq);
      if second.Fail? then Fail(PostQuantumError(second.error)) else Pass
  }

  function Verify(suite: Suite, s: SignedConfiguration): Outcome<Error> {
    var checked := Check(s.configuration);
    if checked.Fail? then checked
    else CheckSignatures(suite, s.configuration.authority, s.configuration.Signed(), s.classicalSignature, s.postQuantumSignature)
  }

  function Sign(signer: Signer, c: Configuration): Result<SignedConfiguration, Error> {
    if c.authority != signer.endpoint then Err(WrongConfigurationAuthority)
    else
      var transcript :- SignedBytes(c);
      Ok(SignedConfiguration(c, signer.signClassical(transcript), signer.signPostQuantum(transcript)))
  }

  // ---- Parsing by offsets ----

  datatype Parsed = Parsed(
    federation: FederationId, authority: EndpointIdentity, epoch: u64, memberBytes: seq<byte>, signatureOffset: nat)

  function ReadIdentity(s: seq<byte>): EndpointIdentity
    requires |s| == IDENTITY_BYTES
  {
    EndpointIdentity(s[..32], s[32..])
  }

  function ReadEpoch(s: seq<byte>): u64
    requires |s| == 8
  {
    Widths();
    FromBigEndian(s)
  }

  const COUNT_START := FIXED_HEADER_BYTES - 2
  const EPOCH_START := FIXED_HEADER_BYTES - 10

  function ParseWire(wire: seq<byte>): (r: Result<Parsed, Error>)
    ensures r.Ok? ==> Fits(wire, r.value)
  {
    if |wire| < FIXED_HEADER_BYTES + SIGNATURE_BYTES then Err(Truncated)
    else if wire[..4] != FEDERATION_CONFIG_MARKER then Err(BadConfigurationMarker)
    else if wire[4] != FEDERATION_CONFIG_VERSION then Err(UnsupportedConfigurationVersion)
    else
      var count := FromBigEndian(wire[COUNT_START..COUNT_START + 2]);
      if count > MAX_FEDERATION_MEMBERS then Err(TooManyFederationMembers)
      else
        var signatureOffset := FIXED_HEADER_BYTES + count * MEMBER_BYTES;
        var expected := signatureOffset + SIGNATURE_BYTES;
        if |wire| < expected then Err(Truncated)
        else if |wire| > expected then Err(TrailingBytes)
        else Ok(Parsed(wire[5..37], ReadIdentity(wire[37..37 + IDENTITY_BYTES]), ReadEpoch(wire[EPOCH_START..EPOCH_START + 8]),
                       wire[FIXED_HEADER_BYTES..signatureOffset], signatureOffset))
  }

  function ParseMember(s: seq<byte>): (r: Member)
    requires |s| == MEMBER_BYTES
    ensures r.Bytes() == s
  {
    Member(s[..32], ReadIdentity(s[32..]))
  }

  /** The members read chunk by chunk. */
  function ParseMembers(s: seq<byte>): (r: seq<Member>)
    requires |s| % MEMBER_BYTES == 0
    ensures MembersBytes(r) == s
  {
    if s == [] then []
    else
      var rest := |s| - MEMBER_BYTES;
      assert s == s[..rest] + s[rest..];
      ParseMembers(s[..rest]) + [ParseMember(s[rest..])]
  }

  /** The parts fit the wire. */
  predicate Fits(wire: seq<byte>, p: Parsed) {
    && |wire| == p.signatureOffset + SIGNATURE_BYTES
    && FIXED_HEADER_BYTES + |p.memberBytes| == p.signatureOffset
    && |p.memberBytes| % MEMBER_BYTES == 0
  }

  /** Checks the signatures over the signed prefix before any member is read. */
  function Accept(suite: Suite, wire: seq<byte>, p: Parsed): Result<SignedConfiguration, Error>
    requires Fits(wire, p)
  {
    var at := p.signatureOffset;
    var classical, postQuantum := wire[at..at + 64], wire[at + 64..];
    :- CheckSignatures(suite, p.authority, wire[..at], classical, postQuantum);
    var c := Configuration(p.federation, p.authority, p.epoch, ParseMembers(p.memberBytes));
    :- Check(c);
    Ok(SignedConfiguration(c, classical, postQuantum))
  }

  function DecodeVerified(suite: Suite, wire: seq<byte>): Result<SignedConfiguration, Error> {
    var parsed :- ParseWire(wire);
    Accept(suite, wire, parsed)
  }

  // ---- The two directions ----

  lemma {:induction false} ParseMembersInverts(members: seq<Member>)
    ensures |MembersBytes(members)| % MEMBER_BYTES == 0 && ParseMembers(MembersBytes(members)) == members
  {
    if members != [] {
      var init, last := members[..|members| - 1], members[|members| - 1];
      ParseMembersInverts(init);
      ParseOneMore(MembersBytes(init), last);
      assert members == init + [last];
    }
  }

  lemma ParseOneMore(s: seq<byte>, member: Member)
    requires |s| % MEMBER_BYTES == 0
    ensures |s + member.Bytes()| % MEMBER_BYTES == 0 && ParseMembers(s + member.Bytes()) == ParseMembers(s) + [member]
  {
    var more := s + member.Bytes();
    assert more[..|s|] == s && more[|s|..] == member.Bytes();
    MemberInverts(member);
  }

  lemma MemberInverts(member: Member)
    ensures ParseMember(member.Bytes()) == member
  {
    assert member.Bytes()[..32] == member.cfrIdentity && member.Bytes()[32..] == member.endpoint.Bytes();
    IdentityInverts(member.endpoint);
  }

  lemma IdentityInverts(who: EndpointIdentity)
    ensures ReadIdentity(who.Bytes()) == who
  {
    assert who.Bytes()[..32] == who.classical && who.Bytes()[32..] == who.postQuantum;
  }

  /** A header is its six fields side by side. */
  lemma HeaderJoins(wire: seq<byte>)
    requires |wire| >= FIXED_HEADER_BYTES
    ensures wire[..FIXED_HEADER_BYTES]
         == wire[..4] + [wire[4]] + wire[5..37] + wire[37..EPOCH_START] + wire[EPOCH_START..COUNT_START]
            + wire[COUNT_START..FIXED_HEADER_BYTES]
  {
    assert wire[..4] + [wire[4]] == wire[..5];
    assert wire[..5] + wire[5..37] == wire[..37];
    assert wire[..37] + wire[37..EPOCH_START] == wire[..EPOCH_START];
    assert wire[..EPOCH_START] + wire[EPOCH_START..COUNT_START] == wire[..COUNT_START];
    assert wire[..COUNT_START] + wire[COUNT_START..FIXED_HEADER_BYTES] == wire[..FIXED_HEADER_BYTES];
  }

  /** What the parser read, written again, is the signed prefix of the wire. */
  lemma ParsedSigned(wire: seq<byte>)
    requires ParseWire(wire).Ok?
    ensures var p := ParseWire(wire).value;
            Configuration(p.federation, p.authority, p.epoch, ParseMembers(p.memberBytes)).Signed() == wire[..p.signatureOffset]
  {
    var p := ParseWire(wire).value;
    var members := ParseMembers(p.memberBytes);
    var c := Configuration(p.federation, p.authority, p.epoch, members);
    HeaderJoins(wire);
    BigEndianEncodes(wire[EPOCH_START..COUNT_START]);
    BigEndianEncodes(wire[COUNT_START..FIXED_HEADER_BYTES]);
    assert |members| == FromBigEndian(wire[COUNT_START..FIXED_HEADER_BYTES]);
    assert p.authority.Bytes() == wire[37..EPOCH_START];
    assert c.Header() == wire[..FIXED_HEADER_BYTES];
    assert wire[..p.signatureOffset] == wire[..FIXED_HEADER_BYTES] + p.memberBytes;
  }

  /** The fields of a header, by offset. */
  lemma HeaderSplits(c: Configuration)
    ensures var h := c.Header();
            && h[..4] == FEDERATION_CONFIG_MARKER && h[4] == FEDERATION_CONFIG_VERSION && h[5..37] == c.federation
            && h[37..EPOCH_START] == c.authority.Bytes() && h[EPOCH_START..COUNT_START] == BigEndian(8, c.epoch)
            && h[COUNT_START..] == BigEndian(2, |c.members|)
  {
  }

  /** Parsing the encoding of a bounded snapshot gives its fields back. */
  lemma ParseOfWire(s: SignedConfiguration)
    requires |s.configuration.members| <= MAX_FEDERATION_MEMBERS
    ensures var c := s.configuration;
            ParseWire(s.Wire()) == Ok(Parsed(c.federation, c.authority, c.epoch, MembersBytes(c.members), |c.Signed()|))
  {
    var c, wire := s.configuration, s.Wire();
    var h := c.Header();
    HeaderSplits(c);
    IdentityInverts(c.authority);
    Widths();
    BigEndianDecodes(8, c.epoch);
    BigEndianDecodes(2, |c.members|);
    assert h == wire[..FIXED_HEADER_BYTES];
    Slices(wire, FIXED_HEADER_BYTES);
    assert wire[FIXED_HEADER_BYTES..|c.Signed()|] == MembersBytes(c.members);
  }

  /** A slice of a prefix is a slice of the whole. */
  lemma Slices(wire: seq<byte>, n: nat)
    requires n <= |wire|
    ensures forall a, b | 0 <= a <= b <= n :: wire[..n][a..b] == wire[a..b]
  {
  }

  lemma AcceptSound(suite: Suite, wire: seq<byte>, p: Parsed)
    requires Fits(wire, p) && Accept(suite, wire, p).Ok?
    requires Configuration(p.federation, p.authority, p.epoch, ParseMembers(p.memberBytes)).Signed() == wire[..p.signatureOffset]
    ensures var s := Accept(suite, wire, p).value;
            s.configuration.Valid() && s.Wire() == wire && Verify(suite, s).Pass?
  {
    var at := p.signatureOffset;
    var c := Configuration(p.federation, p.authority, p.epoch, ParseMembers(p.memberBytes));
    var s := SignedConfiguration(c, wire[at..at + 64], wire[at + 64..]);
    assert Accept(suite, wire, p) == Ok(s);
    assert s.Wire() == wire[..at] + (wire[at..at + 64] + wire[at + 64..]);
    SignaturesJoin(wire, at);
    assert Check(c).Pass?;
  }

  lemma SignaturesJoin(wire: seq<byte>, at: nat)
    requires at + 64 <= |wire|
    ensures wire[..at] + (wire[at..at + 64] + wire[at + 64..]) == wire
  {
  }

  lemma DecodeSound(suite: Suite, wire: seq<byte>)
    requires DecodeVerified(suite, wire).Ok?
    ensures var s := DecodeVerified(suite, wire).value;
            s.configuration.Valid() && s.Wire() == wire && Verify(suite, s).Pass?
  {
    ParsedSigned(wire);
    AcceptSound(suite, wire, ParseWire(wire).value);
  }

  lemma DecodeComplete(suite: Suite, s: SignedConfiguration)
    requires s.configuration.Valid() && Verify(suite, s).Pass?
    ensures DecodeVerified(suite, s.Wire()) == Ok(s)
  {
    ParseOfWire(s);
    ParseMembersInverts(s.configuration.members);
    WireSplits(s.configuration.Signed(), s.classicalSignature, s.postQuantumSignature);
  }

  lemma WireSplits(signed: seq<byte>, c: ClassicalSignature, pq: PostQuantumSignature)
    ensures var wire, at := signed + (c + pq), |signed|;
            wire[..at] == signed && wire[at..at + 64] == c && wire[at + 64..] == pq
  {
  }

  /**
   * The decoder accepts exactly the encodings of valid snapshots whose two signatures verify: decoding inverts
   * encoding, and nothing else decodes, although nothing is encoded again.
   */
  lemma DecodeExactly(suite: Suite, wire: seq<byte>, s: SignedConfiguration)
    ensures DecodeVerified(suite, wire) == Ok(s) <==> Encode(s) == Ok(wire) && Verify(suite, s).Pass?
  {
    if DecodeVerified(suite, wire) == Ok(s) {
      DecodeSound(suite, wire);
    }
    if Encode(s) == Ok(wire) && Verify(suite, s).Pass? {
      DecodeComplete(suite, s);
    }
  }

  /** What a correct authority signs decodes to itself at every receiver. */
  lemma SignedDecodes(suite: Suite, signer: Signer, c: Configuration)
    requires signer.Correct(suite) && signer.endpoint == c.authority && c.Valid()
    ensures var s := Sign(signer, c);
            s.Ok? && s.value.configuration == c && DecodeVerified(suite, s.value.Wire()) == s
  {
    var s := Sign(signer, c).value;
    DecodeExactly(suite, s.Wire(), s);
  }
}
