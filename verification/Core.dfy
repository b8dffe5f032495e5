/** Identifiers, limits, endpoint identities and dual signatures of `libfcp-core`. */
module Core {
  import opened Results
  import opened Bytes

  const ML_DSA_65_PUBLIC_KEY_BYTES := 1952
  const ML_DSA_65_SIGNATURE_BYTES := 3309
  const IDENTITY_BYTES := 32 + ML_DSA_65_PUBLIC_KEY_BYTES

  type Bytes16 = s: seq<byte> | |s| == 16 witness seq(16, i => 0)
  type Bytes32 = s: seq<byte> | |s| == 32 witness seq(32, i => 0)
  type ClassicalSignature = s: seq<byte> | |s| == 64 witness seq(64, i => 0)
  type PostQuantumKey = s: seq<byte> | |s| == ML_DSA_65_PUBLIC_KEY_BYTES
    witness seq(ML_DSA_65_PUBLIC_KEY_BYTES, i => 0)
  type PostQuantumSignature = s: seq<byte> | |s| == ML_DSA_65_SIGNATURE_BYTES
    witness seq(ML_DSA_65_SIGNATURE_BYTES, i => 0)

  type u16 = x: int | 0 <= x < 0x1_0000
  type u32 = x: int | 0 <= x < 0x1_0000_0000
  type u64 = x: int | 0 <= x < 0x1_0000_0000_0000_0000

  type FederationId = Bytes32
  type AttemptId = Bytes16
  type WebRtcBinding = Bytes32
  type EnvelopeId = Bytes32
  type CloseCode = u16

  datatype Error =
    | TooLarge
    | FieldTooLarge
    | Truncated
    | TrailingBytes
    | BadMarker
    | UnsupportedVersion
    | UnknownKind
    | BadSenderKey
    | BadSignature
    | NonCanonical
    | WrongFederation
    | WrongAttempt
    | WrongSender
    | WrongRecipient
    | SameEndpoint
    | WrongLocalSigner
    | InvalidState
    | Glare
    | WrongCandidateParent
    | BadConfigurationMarker
    | UnsupportedConfigurationVersion
    | BadConfigurationAuthority
    | WrongConfigurationAuthority
    | BadConfigurationSignature
    | TooManyFederationMembers
    | DuplicateFederationMember
    | BadPostQuantumKey
    | BadPostQuantumSignatureEncoding
    | BadPostQuantumSignature

  /** The atomic binding of both verification keys. */
  datatype EndpointIdentity = EndpointIdentity(classical: Bytes32, postQuantum: PostQuantumKey) {
    function Bytes(): (r: seq<byte>)
      ensures |r| == IDENTITY_BYTES
    {
      classical + postQuantum
    }
  }

  /**
   The cryptographic primitives, which the models use without looking inside: the two
   signature checks and the envelope digest. Every theorem holds for every suite.
   */
  datatype Suite = Suite(
    classical: (Bytes32, seq<byte>, ClassicalSignature) -> Outcome<Error>,
    postQuantum: (PostQuantumKey, seq<byte>, PostQuantumSignature) -> Outcome<Error>,
    digest: seq<byte> -> Bytes32)
  {
    /** Both mandatory signatures, the classical one first. */
    function Verify(who: EndpointIdentity, message: seq<byte>, c: ClassicalSignature, pq: PostQuantumSignature)
      : Outcome<Error>
    {
      var first := classical(who.classical, message, c);
      if first.Fail? then first else postQuantum(who.postQuantum, message, pq)
    }
  }

  /** An endpoint that can produce both signatures. */
  datatype Signer = Signer(
    endpoint: EndpointIdentity,
    signClassical: seq<byte> -> ClassicalSignature,
    signPostQuantum: seq<byte> -> PostQuantumSignature)
  {
    /** What makes the signatures worth having: they verify under the signer's own identity. */
    ghost predicate Correct(suite: Suite) {
      forall m: seq<byte> :: suite.Verify(endpoint, m, signClassical(m), signPostQuantum(m)).Pass?
    }
  }
}
