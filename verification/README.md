# Verified model of libfcp

This Dafny 4.11 project models the core of libfcp, the Federated CFR Connect Protocol, and of Fabric, its account
authority, and proves what the two promise over whole runs. `dafny verify dfyconfig.toml` checks all of it.

Nothing here runs the Rust program. Cryptography (Ed25519, ML-DSA-65, BLAKE3, SHA-256, HMAC) enters as function
parameters, and the theorems hold for every choice of them. Where a theorem needs more, it says so in its own
`requires`: a carrier cannot deliver a verifying message that its owner never signed (`Unforged`), a signer's
signatures verify (`Correct`), and the digests of two different role changes differ (`CollisionFree`).

## Layout

| files | what they model |
|---|---|
| `Results`, `Bytes`, `Core` | results, big-endian integers, identities, signature suites |
| `Envelope`, `EnvelopeCodec`, `EnvelopeParsers` | signed envelopes, their grammar, the writer and both parsers |
| `Connection`, `ConnectionRuns`, `Protocol`, `ProtocolExchange` | one connection as a class, its runs, two peers over a hostile carrier, and what crosses between them |
| `Configuration`, `Distribution`, `DistributionRuns` | signed snapshots, the authority, clients, and their runs |
| `Routing` | bindings, the peer directory and outbound routing |
| `AuthorityTables`, `Administration`, `AuthorityStore` | the Fabric tables, each transaction as a function, and the store as a class |
| `SessionChains`, `AuthorityRuns`, `AuthorityTheorems`, `TokenLifetimes` | invariants of every interleaving of transactions, what follows, and how long what is issued is good for |
| `Totp`, `Base32`, `Handlers`, `HandlerRuns` | one-time codes, and the HTTP handlers as concurrent threads |
| `HandlerOrigins`, `RoleChanges`, `HandlerWitness` | where each request comes from, what role changes do, and a run that ends in one |
| `FederationDelivery` | the signed server-to-server transcript, admission and replay rows |
| `Candidates` | the staging queue shared by WebRTC callbacks and flushes |

Imperative parts of the source are classes or methods with loops. Each is proved equal to a specification function,
and the theorems are about those functions. A run is a sequence of states and the calls between them.

The main theorems:

- Agreement and delivery between two honest peers: `Protocol.Agreement`, `Protocol.GlareNeverEstablishes`,
  `Protocol.DeliveryIsFaithful`; and they are not empty, because `Protocol.HandshakeEstablishes` builds a run.
- Every action at one peer repeats a call at the other, and every call reaches it: `ProtocolExchange.ActionsAreFaithful`,
  `ProtocolExchange.CallsCross`.
- The envelope decoder accepts exactly the encodings of bounded, signed envelopes: `EnvelopeParsers.DecodeVerified`;
  likewise for snapshots, `Configurations.DecodeExactly`.
- The 1024-entry replay queue refines the full history: `ConnectionRuns.WindowIsRecentHistory`,
  `ConnectionRuns.NegotiationActsOnce`.
- One snapshot per epoch for every client, with the members the authority was given for it:
  `DistributionRuns.SameEpochAgrees`, `DistributionRuns.BindingsAreAsGiven`.
- Refresh chains, final reuse detection, multi-factor login and increasing codes over every interleaving:
  `AuthorityTheorems.RefreshChains`, `ReuseIsFinal`, `PasswordNeverSuffices`, `StepsIncrease`, `OwnerIsFixed`.
- Exactly when an access token, a refresh token, a grant and a login transaction still work, in every later state of
  every run: `TokenLifetimes.AccessLifetime`, `RefreshLifetime`, `GrantLifetime`, `LoginLifetime`.
- Every privilege is paid for exactly once: `HandlerRuns.OneCodeOnePrivilege`, `OneLoginOneSession`, `PaidRoleChange`,
  `OneCodeOneRoleChange`; and they are not empty, because `HandlerWitness.PrivilegesAreReachable` builds a run.
- The log of paid role changes accounts for every role that an account holds: `RoleChanges.RolesFollowTheLog`,
  `RoleChanges.RolesArePaidFor`.
- A federated delivery is accepted if and only if it is well formed, genuine, in time and new:
  `FederationDelivery.AcceptedExactly`, `FederationDelivery.FirstIsAccepted`.
- Conservation and order of ICE candidates: `Candidates.Conservation`, `Candidates.OldestIsEvicted`.

## Where code and comments differ

- The comment of `verify_totp` says that the store must record the returned step, and that a factor accepts each step
  at most once. The second half is not a property of the function by itself, which only skips the step equal to the
  last one: `Totp.OlderStepIsAccepted` gives an input on which an older step comes back. A caller can rely on newer
  steps exactly when the last one is before the current one (`Totp.VerificationAloneIncreases`). Together with the
  store's conditional update the promise holds over every run: `AuthorityTheorems.StepsIncrease`.
- A test of the administration module is named as if step-up let an administrator change roles. By the permission
  table only an Owner may manage roles: `Administration.ManagingRolesTakesAnOwner`.

## Model

| member | source | states |
|---|---|---|
| `Envelopes.ValidFits` | crates/libfcp-core/src/envelope.rs:246-296 | Encoding succeeds exactly on bodies within their field bounds; a bounded envelope always fits the envelope bound, so the size error is never the encoder's answer. |
| `Envelopes.SignedVerifies` | crates/libfcp-core/src/envelope.rs:136-157 | Signing succeeds exactly on bounded bodies, and what it makes verifies, encodes and has an id. |
| `EnvelopeCodec.ParseSound` | crates/libfcp-core/src/envelope.rs:160-215 | Whatever parses is the encoding of what it parses to, and the prefix that gets verified is exactly the signed bytes. |
| `EnvelopeCodec.ParseComplete` | crates/libfcp-core/src/envelope.rs:160-215 | Every bounded envelope's wire parses back to it. |
| `EnvelopeParsers.Recheck` | crates/libfcp-core/src/envelope.rs:206-214 | Re-encoding what was parsed gives the wire again on every input, so the check passes and its error is unreachable. |
| `EnvelopeParsers.Writer.Prefixed` | crates/libfcp-core/src/envelope.rs:384-390 | Appends the big-endian length and the bytes, or fails and appends nothing when the length does not fit. |
| `EnvelopeParsers.WriteSigned` | crates/libfcp-core/src/envelope.rs:256-296 | The field-by-field writer yields the specified signed bytes, or the field error. |
| `EnvelopeParsers.WriteWire` | crates/libfcp-core/src/envelope.rs:246-254 | The writer yields the specified encoding. |
| `EnvelopeParsers.Reader.Fixed` | crates/libfcp-core/src/envelope.rs:407-412 | Reads the next bytes and advances, or reports truncation and stays. |
| `EnvelopeParsers.Reader.Prefixed` | crates/libfcp-core/src/envelope.rs:426-437 | Reads a bounded length-prefixed field as the grammar does. |
| `EnvelopeParsers.Reader.Header` | crates/libfcp-core/src/envelope.rs:160-177 | Reads marker, version, kind and routing as the grammar does, with the same errors in the same order. |
| `EnvelopeParsers.Reader.Body` | crates/libfcp-core/src/envelope.rs:178-203 | Reads the body of a kind as the grammar does. |
| `EnvelopeParsers.Reader.SkipBody` | crates/libfcp-core/src/envelope.rs:313-334 | The borrowed parser skips exactly what the owning parser reads and fails with the same error. |
| `EnvelopeParsers.Decode` | crates/libfcp-core/src/envelope.rs:160-215 | The owning parser, re-encoding check included, computes the grammar's reading. |
| `EnvelopeParsers.VerifyWire` | crates/libfcp-core/src/envelope.rs:299-343 | The borrowed parser accepts exactly the wires that parse and whose two signatures verify over the signed prefix. |
| `EnvelopeParsers.DecodeVerified` | crates/libfcp-core/src/envelope.rs:218-221 | Returns an envelope if and only if the wire is the encoding of that bounded envelope and both signatures verify. |
| `Connections.Connect` | crates/libfcp-core/src/connection.rs:129-147 | Different endpoints get a fresh idle connection with nothing negotiated or seen; one endpoint paired with itself gets the error. |
| `Connections.Connection.BeginOffer` | crates/libfcp-core/src/connection.rs:175-204 | Updates the object exactly as the offer step of the state machine, errors included. |
| `Connections.Connection.AnswerOffer` | crates/libfcp-core/src/connection.rs:207-235 | Updates the object exactly as the answer step. |
| `Connections.Connection.SendCandidate` | crates/libfcp-core/src/connection.rs:238-269 | Signs for the newest negotiated parent without changing the object. |
| `Connections.Connection.SendCfr` | crates/libfcp-core/src/connection.rs:272-288 | Signs a control payload only when established, without changing the object. |
| `Connections.Connection.CloseLocal` | crates/libfcp-core/src/connection.rs:291-308 | Updates the object exactly as the close step, which moves the phase before it signs. |
| `Connections.Connection.Receive` | crates/libfcp-core/src/connection.rs:311-391 | Validation, replay check, phase checks and the bounded queue update equal the receive step. |
| `Connections.Connection.TransportConnected` | crates/libfcp-core/src/connection.rs:394-400 | Establishes from an answered phase only. |
| `Connections.Connection.TransportFailed` | crates/libfcp-core/src/connection.rs:403-409 | Closes a live connection only. |
| `ConnectionRuns.StepKeeps` | crates/libfcp-core/src/connection.rs:175-409 | One call: ids match the phase, a phase change climbs, pins never move, ids are only extended, and a failing call changes nothing. |
| `ConnectionRuns.RunKeeps` | crates/libfcp-core/src/connection.rs:117-409 | The same between any two points of any run. |
| `ConnectionRuns.AtMostFourPhaseChanges` | crates/libfcp-core/src/connection.rs:175-409 | The number of phase changes of a run is bounded by the rank gained, hence by four. |
| `ConnectionRuns.WindowIsRecentHistory` | crates/libfcp-core/src/connection.rs:452-457 | The queue is always the last 1024 accepted ids of the whole history, and equal ids are more than 1024 acceptances apart. |
| `ConnectionRuns.ControlReplayIsDecidedByTheWindow` | crates/libfcp-core/src/connection.rs:378-387 | A verified control envelope is delivered if and only if its id is not among the last 1024 accepted ones. |
| `ConnectionRuns.OnlyPinnedEnvelopesAct` | crates/libfcp-core/src/connection.rs:418-450 | An envelope passes inbound validation if and only if federation, attempt, sender and recipient are the pinned ones and both signatures verify; anything else changes nothing, and a candidate acts only under a known parent. |
| `ConnectionRuns.NegotiationActsOnce` | crates/libfcp-core/src/connection.rs:311-391 | Offers, answers and closes are acted on at most once in a connection's life, however old the replay. |
| `ConnectionRuns.ReceiptExactly` | crates/libfcp-core/src/connection.rs:311-391 | A receipt acts if and only if the envelope is pinned, new and fits the phase; it then yields the one action its body asks for and the ids that go with it. A replay yields nothing, anything else is an error, neither changes anything, and glare is reported exactly for an offer that meets an own offer. |
| `ConnectionRuns.CallsExactly` | crates/libfcp-core/src/connection.rs:175-409 | When each other call succeeds, as an if-and-only-if over signer, phase and size, and the phase it leaves. |
| `ConnectionRuns.EndedIsFinal` | crates/libfcp-core/src/connection.rs:291-409 | A successful local close, transport failure or received close leaves the connection closed, and no later call of the run yields any action. |
| `Protocol.RunInv` | crates/libfcp-core/src/connection.rs:311-432 | The linking invariant of two peers holds in every state of every run over a dropping, reordering, replaying carrier. |
| `Protocol.Agreement` | crates/libfcp-core/src/connection.rs:311-400 | A peer that took an offer holds the offerer's own id; peers that both hold an answer hold equal pairs, one as answerer and one as offerer; the peers never both answer, and never both hold an answer they received. |
| `Protocol.GlareNeverEstablishes` | crates/libfcp-core/src/connection.rs:320-345 | If both sides ever offer, neither side is established or holds an answer in any state of the run. |
| `Protocol.DeliveryIsFaithful` | crates/libfcp-core/src/connection.rs:378-387 | Each delivery carries byte for byte a payload the remote passed in while established, names the pinned remote, and happens while both hold the same ids. |
| `Protocol.HandshakeEstablishes` | crates/libfcp-core/src/connection.rs:175-400 | From any two fresh peers there is a run that establishes both. |
| `ProtocolExchange.CallsSend` | crates/libfcp-core/src/connection.rs:175-308 | An allowed signing call yields exactly one envelope to send, with its own body under the connection's pins and both signatures over its signed bytes; an offer opens the control channel first. |
| `ProtocolExchange.ActionsAreFaithful` | crates/libfcp-core/src/connection.rs:311-391 | Over every run, an offer, answer, candidate, close or payload handed up at one peer repeats, field for field, an earlier successful call of the other. |
| `ProtocolExchange.DescriptionsAgree` | crates/libfcp-core/src/connection.rs:320-358 | When an offer is applied both peers hold its id, and when an answer is applied both hold the same pair. |
| `ProtocolExchange.CallsCross` | crates/libfcp-core/src/connection.rs:175-391 | Whatever a correct signer's call sends, the other peer, at any point of the run where it is ready for it, turns into the action the call asked for, once. |
| `ProtocolExchange.CandidatesCross` | crates/libfcp-core/src/connection.rs:238-269 | A candidate signed while the other peer knows the sender's ids is added there with the same sequence and bytes. |
| `ProtocolExchange.ControlCrosses` | crates/libfcp-core/src/connection.rs:272-288 | Between established peers every bounded payload is delivered byte for byte under the sender's identity. |
| `Configurations.Validate` | crates/libfcp-core/src/configuration.rs:75-87 | The loop over two sets decides exactly the member bound and pairwise distinct identities and endpoints. |
| `Configurations.WriteSigned` | crates/libfcp-core/src/configuration.rs:89-105 | The appending loop yields the specified bytes; the member count always fits two bytes. |
| `Configurations.CheckSignatures` | crates/libfcp-core/src/configuration.rs:137-147 | Passes exactly when both signatures verify, whatever the error mapping. |
| `Configurations.ParseMembers` | crates/libfcp-core/src/configuration.rs:173-177 | Chunks of one member each, whose encodings make up the input again. |
| `Configurations.ParsedSigned` | crates/libfcp-core/src/configuration.rs:239-289 | What the offset parser reads, written again, is the signed prefix of the wire. |
| `Configurations.ParseOfWire` | crates/libfcp-core/src/configuration.rs:239-289 | Parsing the encoding of a bounded snapshot gives its fields back. |
| `Configurations.DecodeExactly` | crates/libfcp-core/src/configuration.rs:158-185 | Decoding a wire gives a snapshot if and only if the wire is the encoding of that valid snapshot and its signatures verify. |
| `Configurations.SignedDecodes` | crates/libfcp-core/src/configuration.rs:121-185 | What a correct authority signs decodes to itself. |
| `Distribution.FederationServer.constructor` | crates/libfcp-server/src/server.rs:32-39 | An empty valid configuration at epoch zero under the signer's identity. |
| `Distribution.FederationServer.ReplaceMembers` | crates/libfcp-server/src/server.rs:62-77 | Replaces the snapshot only for a greater epoch and a valid member set; otherwise changes nothing. |
| `Distribution.FederationServer.Publish` | crates/libfcp-server/src/server.rs:80-85 | Publishing always succeeds and signs the held snapshot. |
| `Distribution.BindMembers` | crates/libfcp/src/client.rs:102-117 | The loop computes the projection of the snapshot to remote members, or the local-member error. |
| `Distribution.FederationClient.constructor` | crates/libfcp/src/client.rs:48-55 | No epoch and no bindings. |
| `Distribution.FederationClient.ApplyConfiguration` | crates/libfcp/src/client.rs:83-122 | Checks in the source's order; epoch and bindings change together or not at all. |
| `DistributionRuns.BindingsAreASnapshot` | crates/libfcp/src/client.rs:83-122 | A client's bindings are the projection of the one snapshot the authority held at the client's epoch. |
| `DistributionRuns.EpochNeverFalls` | crates/libfcp/src/client.rs:95-100 | Between any two states of a run a client's epoch does not fall, and an unchanged epoch means an unchanged client. |
| `DistributionRuns.SameEpochAgrees` | crates/libfcp/src/client.rs:102-120 | Clients at one epoch bind the same identities to the same endpoints, apart from themselves. |
| `DistributionRuns.BindingsAreSeparate` | crates/libfcp/src/client.rs:102-120 | Bindings are injective, never name the client and never point at its own endpoint. |
| `DistributionRuns.ReplacedExactly` | crates/libfcp-server/src/server.rs:62-77 | A replacement is accepted if and only if the epoch is greater and the members are few enough and unrepeated, and is then held with exactly the given epoch and members. |
| `DistributionRuns.HeldWasGiven` | crates/libfcp-server/src/server.rs:62-77 | Over every run each held snapshot but the empty first one has the epoch and members of one replacement. |
| `DistributionRuns.BindingsAreAsGiven` | crates/libfcp/src/client.rs:102-120 | A client at an epoch was among the members given for it at its own endpoint, and binds exactly the others. |
| `DistributionRuns.AppliedExactly` | crates/libfcp/src/client.rs:83-122 | A snapshot is applied if and only if it verifies, is for this federation and authority, is newer, and lists the client at its endpoint. |
| `DistributionRuns.RefusalsAreTrue` | crates/libfcp/src/client.rs:83-122 | Every refusal of a snapshot gives a true reason. |
| `DistributionRuns.GenuineIsAccepted` | crates/libfcp/src/client.rs:83-122 | Any snapshot a correct authority held is taken by a client it lists that is not past it. |
| `Routing.Identities` | crates/libfcp/src/bindings.rs:46-48 | The keys in ascending order, each once. |
| `Routing.RouteOutbound` | crates/libfcp/src/bridge.rs:21-37 | The loop routes to the keys in order; a failure part way is the failure of the whole and returns no actions. |
| `Routing.PeerConnections.constructor` | crates/libfcp/src/directory.rs:28-34 | An empty directory pinned to the federation and the local endpoint. |
| `Routing.PeerConnections.Insert` | crates/libfcp/src/directory.rs:37-44 | Files a matching connection under its remote endpoint and returns the one it replaces; a mismatch changes nothing. |
| `Routing.PeerConnections.Remove` | crates/libfcp/src/directory.rs:47-49 | Removes and returns that entry only. |
| `Routing.RouteOneExactly` | crates/libfcp/src/bridge.rs:39-51 | Succeeds exactly for a bound identity with an established connection, the local signer and a bounded payload, with one envelope to the bound endpoint; a missing binding and a missing connection are told apart exactly. |
| `Routing.RouteEachExactly` | crates/libfcp/src/bridge.rs:29-35 | Succeeds exactly when every identity is routable, with one unchanged payload per identity in order. |
| `Routing.EveryoneOnce` | crates/libfcp/src/bridge.rs:29-35 | Over injective bindings each bound endpoint gets the payload exactly once. |
| `Routing.EveryoneInAnyRun` | crates/libfcp/src/bridge.rs:21-37 | In every state of every run of authority and clients, a client's broadcast reaches each remote member of its snapshot exactly once and never itself. |
| `AuthorityTables.RotateLocked` | crates/fcp-fabric-store/src/helpers.rs:53-101 | A rotation spends an unspent credential of a live family and reports its successor: owner and family as stored, credential, session and both expiries as asked for and as the tables now hold them; any other answer leaves the tables alone. |
| `AuthorityTables.Rotate` | crates/fcp-fabric-store/src/sessions.rs:191-259 | Rotation spends the presented credential and reports its successor row by row, detection happens in a live family only, and everything else leaves the tables alone. |
| `AuthorityTables.ActivateFactor` | crates/fcp-fabric-store/src/mfa.rs:247-279 | Success records a step never accepted before on this account's factor and on no other; failure changes nothing. |
| `AuthorityTables.ConsumeStep` | crates/fcp-fabric-store/src/mfa.rs:310-329 | The same for an active factor. |
| `AuthorityTables.ConsumeLogin` | crates/fcp-fabric-store/src/login_transactions.rs:90-140 | Success consumes a matching open transaction and leaves the others alone. |
| `AuthorityStores.RotateLockedCredential` | crates/fcp-fabric-store/src/helpers.rs:35-119 | The statements in order, with rollback on a constraint violation, equal the specified rotation, its record included. |
| `AuthorityStores.RevokeLiveFamily` | crates/fcp-fabric-store/src/helpers.rs:131-176 | Revokes a live family of this owner with its open access sessions, or nothing. |
| `AuthorityStores.RotatePresented` | crates/fcp-fabric-store/src/sessions.rs:186-261 | The locked lookup and its decisions equal the specified rotation. |
| `AuthorityStores.AuthorityStore.constructor` | crates/fcp-fabric-store/migrations/001_authority_schema.sql:8-110 | The freshly created, empty tables satisfy every store invariant. |
| `AuthorityStores.AuthorityStore.CreateRefreshSession` | crates/fcp-fabric-store/src/sessions.rs:69-162 | Family, credential and access session are inserted together or not at all; the invariants are kept. |
| `AuthorityStores.AuthorityStore.AccessSession` | crates/fcp-fabric-store/src/sessions.rs:29-56 | The first query answers exactly for a token whose session authenticates, with that session's owner and family. |
| `AuthorityStores.AuthorityStore.RolesForAccount` | crates/fcp-fabric-store/src/accounts.rs:338-352 | The second query, a separate read, gives exactly the stored roles of the account in the tenant. |
| `AuthorityStores.AuthorityStore.RotateRefreshCredential` | crates/fcp-fabric-store/src/sessions.rs:176-261 | The transaction equals the specified rotation and keeps the invariants. |
| `AuthorityStores.AuthorityStore.RevokeRefreshSessionFamily` | crates/fcp-fabric-store/src/sessions.rs:274-296 | Idempotent revocation; the invariants are kept. |
| `AuthorityStores.AuthorityStore.CreatePendingTotpFactor` | crates/fcp-fabric-store/src/mfa.rs:129-179 | Inserts a pending factor for an existing account only. |
| `AuthorityStores.AuthorityStore.ActivateTotpFactor` | crates/fcp-fabric-store/src/mfa.rs:235-295 | Activates the factor and the account together or neither; at most one factor becomes active. |
| `AuthorityStores.AuthorityStore.ConsumeTotpStep` | crates/fcp-fabric-store/src/mfa.rs:303-330 | The conditional update succeeds only for a greater step of an active account's active factor. |
| `AuthorityStores.AuthorityStore.CreateStepUpGrant` | crates/fcp-fabric-store/src/step_up.rs:25-89 | Inserts a grant for a live family of an active account only. |
| `AuthorityStores.AuthorityStore.ConsumeStepUpGrant` | crates/fcp-fabric-store/src/step_up.rs:102-154 | Consumes the one unconsumed, unexpired grant with exactly this owner, family, target and digest, if there is one. |
| `AuthorityStores.AuthorityStore.CreateLoginTransaction` | crates/fcp-fabric-store/src/login_transactions.rs:25-81 | Inserts one open transaction for an existing account. |
| `AuthorityStores.AuthorityStore.ConsumeLoginTransaction` | crates/fcp-fabric-store/src/login_transactions.rs:90-142 | Consumes exactly the row with this digest, stage and binding. |
| `AuthorityStores.AuthorityStore.BootstrapTenant` | crates/fcp-fabric-store/src/accounts.rs:24-89 | Tenant, owner account and Owner role together or not at all. |
| `AuthorityStores.AuthorityStore.InviteAccount` | crates/fcp-fabric-store/src/accounts.rs:97-142 | A validated command inserts an enrolling account with its role. |
| `AuthorityStores.AuthorityStore.ChangeAccountRole` | crates/fcp-fabric-store/src/accounts.rs:150-205 | A validated command grants or revokes exactly one role row, or reports that nothing changed. |
| `AuthorityStores.LoginOpensOnce` | crates/fcp-fabric-store/src/login_transactions.rs:90-142 | Over every run a login transaction is opened at most once, whatever stage and binding are presented. |
| `SessionChains.CreateKeepsSessions` | crates/fcp-fabric-store/src/sessions.rs:92-136 | Creation keeps owners, chains, digests and the one live session per family. |
| `SessionChains.RevokeKeepsSessions` | crates/fcp-fabric-store/src/helpers.rs:140-160 | Revocation keeps them too, and leaves no live session in the family. |
| `SessionChains.RotateKeepsSessions` | crates/fcp-fabric-store/src/helpers.rs:53-101 | Rotation appends to the chain and replaces the live session. |
| `AuthorityRuns.PerformKeepsSessions` | crates/fcp-fabric-store/src/sessions.rs:69-296 | Every request of the store keeps the session invariants. |
| `AuthorityRuns.PerformKeepsFactors` | crates/fcp-fabric-store/src/mfa.rs:129-330 | Every request keeps one active factor per active account, none per enrolling one. |
| `AuthorityTheorems.RunPersists` | crates/fcp-fabric-store/src/sessions.rs:69-296 | Between any two states of a run nothing is undone: owners of rows, revocations, consumptions, active factors and their steps. |
| `AuthorityTheorems.RefreshChains` | crates/fcp-fabric-store/src/helpers.rs:53-101 | In every state a family's credentials are one replacement chain with one unspent tail, with one live access session until revocation and none after. |
| `AuthorityTheorems.RotatedOnce` | crates/fcp-fabric-store/src/helpers.rs:53-67 | No credential is rotated twice in a run. |
| `AuthorityTheorems.SpentIsDetected` | crates/fcp-fabric-store/src/sessions.rs:220-237 | Presenting a spent credential of a live family is always answered with detected reuse. |
| `AuthorityTheorems.DeniedExactly` | crates/fcp-fabric-store/src/sessions.rs:220-246 | A known credential is denied exactly for a revoked family, expiry or an unavailable account, so the branch for an update of no row is unreachable. |
| `AuthorityTheorems.ReuseIsFinal` | crates/fcp-fabric-store/src/sessions.rs:220-242 | After detected reuse no state lets the family rotate, be detected again, authenticate, or create or consume a grant. |
| `AuthorityTheorems.OneAccessSession` | crates/fcp-fabric-store/src/sessions.rs:29-61 | In every state at most one access session of a family authenticates, so rotation ends the previous one. |
| `AuthorityTheorems.OneActiveFactor` | crates/fcp-fabric-store/src/mfa.rs:247-279 | In every state an active account owns exactly one active factor. |
| `AuthorityTheorems.Authenticate` | crates/fcp-fabric-service/src/authentication.rs:70-108 | Which reads lead to a session, a challenge or enrolment, each exactly. |
| `AuthorityTheorems.PasswordNeverSuffices` | crates/fcp-fabric-service/src/authentication.rs:57-109 | Even with the three reads in different states, an active account is always challenged; the password-only outcome and the privileged denial are unreachable. |
| `AuthorityTheorems.StepsIncrease` | crates/fcp-fabric-store/src/mfa.rs:310-329 | The steps accepted for a factor, its activation included, increase strictly over every run. |
| `AuthorityTheorems.StoredStepWasAccepted` | crates/fcp-fabric-store/src/mfa.rs:247-329 | The stored step is the last one accepted. |
| `AuthorityTheorems.OwnerIsFixed` | crates/fcp-fabric-store/src/accounts.rs:60-69 | Every known tenant has exactly one Owner row, which never changes after bootstrap. |
| `TokenLifetimes.CreationExactly` | crates/fcp-fabric-store/src/sessions.rs:69-162 | A family is created if and only if its account is active, both ends lie ahead and every id and digest is unused. |
| `TokenLifetimes.RotationExactly` | crates/fcp-fabric-store/src/sessions.rs:191-259 | Which row is answered with a rotation and which with detected reuse, each as an if-and-only-if. |
| `TokenLifetimes.UnspentWhileNoneIssued` | crates/fcp-fabric-store/src/helpers.rs:53-101 | Over every run a credential stays unspent exactly as long as no tokens are issued in its family. |
| `TokenLifetimes.UnrevokedWhileNoneIssued` | crates/fcp-fabric-store/src/helpers.rs:80-101 | Over every run an access session stays unrevoked exactly as long as its family is live and no tokens are issued in it. |
| `TokenLifetimes.AccessLifetime` | crates/fcp-fabric-store/src/sessions.rs:29-61 | In every later state an access token works if and only if the access expiry of its request lies ahead, the account is active, the family is live and nothing was issued in it since. |
| `TokenLifetimes.RefreshLifetime` | crates/fcp-fabric-store/src/sessions.rs:176-261 | In every later state a refresh token rotates if and only if the refresh expiry of its request lies ahead, the account is active, the family is live and nothing was issued in it since; it is detected if and only if something was and the family is live. |
| `TokenLifetimes.RevocationIsFinal` | crates/fcp-fabric-store/src/sessions.rs:274-296 | A revocation by its owner leaves the family dead in every later state; by anyone else it changes nothing. |
| `TokenLifetimes.GrantExactly` | crates/fcp-fabric-store/src/step_up.rs:25-89 | A grant is issued if and only if its family is live and its own active account's, its end lies ahead and its id and digest are unused. |
| `TokenLifetimes.GrantLifetime` | crates/fcp-fabric-store/src/step_up.rs:102-154 | In every later state a grant's digest redeems it if and only if owner, family and target are its own, its expiry lies ahead, the family is live and it was not redeemed before; otherwise it redeems nothing. |
| `TokenLifetimes.LoginExactly` | crates/fcp-fabric-store/src/login_transactions.rs:25-81 | When a login transaction is begun, as an if-and-only-if. |
| `TokenLifetimes.LoginLifetime` | crates/fcp-fabric-store/src/login_transactions.rs:90-142 | In every later state its digest opens it if and only if stage and binding are its own, its expiry lies ahead and it was not opened before, and hands over the account and factor it was begun for. |
| `TokenLifetimes.ActivationExactly` | crates/fcp-fabric-store/src/mfa.rs:235-295 | In every state of a run a factor is activated if and only if it is pending for its own enrolling account, which is then active. |
| `TokenLifetimes.StepExactly` | crates/fcp-fabric-store/src/mfa.rs:303-330 | In every state of a run a step is accepted if and only if the factor is the active one of its active account and every step accepted for it before is smaller. |
| `Administration.ManagingRolesTakesAnOwner` | crates/fcp-fabric-domain/src/policy.rs:78-105 | An actor may manage roles if and only if it is active and an Owner. |
| `Administration.InvitingTakesAuthority` | crates/fcp-fabric-domain/src/administration.rs:76-83 | An invitation is valid if and only if an active Owner or Admin of the tenant invites an Operator, Auditor or Member. |
| `Administration.ChangingTakesAnOwner` | crates/fcp-fabric-domain/src/administration.rs:182-190 | A role change is valid if and only if an active Owner of the tenant with step-up changes another role than Owner. |
| `RoleChanges.RoleChangeExactly` | crates/fcp-fabric-store/src/accounts.rs:150-205 | A role change succeeds if and only if its actor is entitled and there is something to change; the target's roles then gain or lose exactly that role, and nobody else's roles and no other table change. |
| `RoleChanges.BootstrapExactly` | crates/fcp-fabric-store/src/accounts.rs:24-89 | A tenant is bootstrapped if and only if id, domain and owner are unused, and then has one enrolling account whose only role is Owner. |
| `RoleChanges.InviteExactly` | crates/fcp-fabric-store/src/accounts.rs:97-142 | An invitation is carried out if and only if it is authorised, the tenant exists and the name is free, and adds one enrolling account with exactly the invited role. |
| `Totp.CurrentStep` | crates/fcp-fabric-auth/src/totp.rs:219-222 | The step whose 30 seconds hold the clock, rounded toward zero before the epoch. |
| `Totp.CodeOf` | crates/fcp-fabric-auth/src/totp.rs:264-275 | The four-byte window always exists and the code has at most six digits. |
| `Totp.CodeIsDynamicTruncation` | crates/fcp-fabric-auth/src/totp.rs:264-275 | Masking the word gives the truncation of section 5.4 of RFC 4226, which masks its first byte. |
| `Totp.VerifyTotp` | crates/fcp-fabric-auth/src/totp.rs:201-240 | The loop over two steps returns the newest acceptable one. |
| `Totp.Verified` | crates/fcp-fabric-auth/src/totp.rs:218-237 | An accepted step is the current or the previous one, not the last one, with the supplied code; a well-formed code with such a step is accepted. |
| `Totp.OlderStepVerifies` | crates/fcp-fabric-auth/src/totp.rs:221-238 | For a given seed and code, exactly when verification alone accepts a step older than the last one. |
| `Totp.OlderStepIsAccepted` | crates/fcp-fabric-auth/src/totp.rs:225-228 | A concrete clock, code and last step on which an older step is accepted. |
| `Totp.VerificationAloneIncreases` | crates/fcp-fabric-auth/src/totp.rs:192-238 | Verification returns newer steps only, for every seed and code, if and only if the last step is before the current one. |
| `Base32.Base32NoPadding` | crates/fcp-fabric-auth/src/totp.rs:277-296 | The loop over an overflowing 16-bit accumulator outputs the unpadded encoding of section 6 of RFC 4648. |
| `Base32.Encode` | crates/fcp-fabric-auth/src/totp.rs:277-296 | The length is the number of bits over five, rounded up. |
| `Base32.Indexes` | crates/fcp-fabric-auth/src/totp.rs:284-294 | One index per started group of five bits, each within the alphabet. |
| `Base32.DecodeRecovers` | crates/fcp-fabric-auth/src/totp.rs:277-296 | Decoding the encoding gives the bytes back. |
| `Handlers.TargetBytesInjective` | crates/fcp-fabric-service/src/step_up.rs:234-247 | The hashed bytes determine account, role and direction. |
| `HandlerRuns.RunKeeps` | crates/fcp-fabric-service/src/transport/admin.rs:79-199 | The world invariant, tokens included, holds in every state of every interleaving of handlers and other requests. |
| `HandlerRuns.OneCodeOnePrivilege` | crates/fcp-fabric-service/src/transport/auth.rs:191-305 | Two sessions or grants issued on codes never share an accepted step of a factor. |
| `HandlerRuns.OneLoginOneSession` | crates/fcp-fabric-service/src/transport/auth.rs:191-305 | Two sessions issued on codes never share a consumed login transaction. |
| `HandlerRuns.PaidSession` | crates/fcp-fabric-service/src/transport/auth.rs:252-305 | A session issued on a code rests on an earlier consumed login transaction of the right stage and an earlier code, both of the account that owns the family. |
| `HandlerRuns.PaidGrant` | crates/fcp-fabric-service/src/transport/admin.rs:79-128 | A grant goes only to the tenant's Owner, on an earlier code of that Owner. |
| `HandlerRuns.CodesAreFresh` | crates/fcp-fabric-service/src/mfa.rs:73-115 | Every accepted code is the right code of the account's active factor for the current or previous step of its request's clock. |
| `HandlerRuns.PaidRoleChange` | crates/fcp-fabric-service/src/transport/admin.rs:131-199 | Every committed role change was paid by an earlier grant for exactly this account, role and direction in the same family, itself issued on a still earlier code of the actor, and the actor is the tenant's Owner. |
| `HandlerRuns.OneCodeOneRoleChange` | crates/fcp-fabric-service/src/step_up.rs:94-169 | The grants that paid for two role changes are different grants, issued on different accepted codes. |
| `HandlerRuns.AnyPaymentsAreApart` | crates/fcp-fabric-service/src/step_up.rs:94-169 | That holds of any two grants that paid for two role changes, with no assumption on digests. |
| `HandlerOrigins.RoleChangesAreSignedIn` | crates/fcp-fabric-service/src/transport/admin.rs:131-199 | Every committed role change comes from a request that earlier signed in with an authenticating session of its actor, in the same family. |
| `HandlerOrigins.GrantsAreSignedIn` | crates/fcp-fabric-service/src/transport/admin.rs:79-128 | Every grant comes from such a request, after its account was read to be active. |
| `HandlerOrigins.SessionsAreCleared` | crates/fcp-fabric-service/src/transport/auth.rs:191-305 | Every session issued on a code comes after its account was read to be active. |
| `RoleChanges.ChangeTakesEffect` | crates/fcp-fabric-service/src/transport/admin.rs:131-199 | The step that logs a role change gives its target the role or takes it away, as commanded, and leaves everyone else's roles alone. |
| `RoleChanges.RolesFollowTheLog` | crates/fcp-fabric-service/src/transport/admin.rs:131-199 | From any state to any later one an existing account holds a role if and only if the last logged change that concerns the two granted it, or there is none and it held it before. |
| `RoleChanges.RolesArePaidFor` | crates/fcp-fabric-service/src/transport/admin.rs:131-199 | Whoever gains or loses a role between two states does so by a logged change that a grant for it and a code of its actor paid for. |
| `HandlerWitness.PrivilegesAreReachable` | crates/fcp-fabric-service/src/transport/admin.rs:79-199 | From empty tables there is a run that opens a login, accepts two codes, issues a session on the first and a grant on the second, and commits a role change for another account than the actor's. |
| `FederationDelivery.WriteTranscript` | crates/fcp-fabric-service/src/federation.rs:74-94 | The appending writer yields the specified transcript or the first error. |
| `FederationDelivery.TranscriptInjective` | crates/fcp-fabric-service/src/federation.rs:74-94 | Deliveries with one transcript differ in fractions of a second only. |
| `FederationDelivery.FederationIngress.constructor` | crates/fcp-fabric-service/src/federation_ingress.rs:151-159 | No request has been recorded. |
| `FederationDelivery.FederationIngress.RecordReplay` | crates/fcp-fabric-store/src/federation.rs:83-134 | Inserts a row on first sight before expiry; otherwise changes nothing and says so. |
| `FederationDelivery.FederationIngress.Receive` | crates/fcp-fabric-service/src/federation_ingress.rs:172-208 | Resolution, policy and recording equal the specified admission. |
| `FederationDelivery.AcceptedOnce` | crates/fcp-fabric-store/src/federation.rs:101-122 | Over every run a request of a peer of a tenant is accepted at most once. |
| `FederationDelivery.AcceptedInTime` | crates/fcp-fabric-service/src/federation.rs:184-206 | Accepted only from 60 seconds before issue to 300 after it, in whole seconds, when the store's clock is not behind. |
| `FederationDelivery.AcceptedIsGenuine` | crates/fcp-fabric-service/src/federation.rs:145-160 | An accepted delivery equals, up to fractions of a second, one that an active peer's authority signed for this pair of domains, with addresses in those domains and a bounded payload. |
| `FederationDelivery.AcceptedExactly` | crates/fcp-fabric-service/src/federation_ingress.rs:172-208 | A delivery is accepted if and only if it comes from an active peer between the pinned domains under the pinned authority, is well formed, in time on both clocks, verifies twice and is not recorded; replayed under the same conditions if it is; only acceptance records a row, with its own digest and times. |
| `FederationDelivery.RefusalsAreTrue` | crates/fcp-fabric-service/src/federation.rs:184-206 | Every refusal gives a true reason. |
| `FederationDelivery.RecordedWasAccepted` | crates/fcp-fabric-store/src/federation.rs:101-122 | Over every run each recorded row is that of an accepted delivery, with its digest and times. |
| `FederationDelivery.FirstIsAccepted` | crates/fcp-fabric-service/src/federation_ingress.rs:172-208 | Over every run an acceptable delivery is accepted if and only if none with its key was accepted before. |
| `FederationDelivery.GenuineIsAcceptable` | crates/fcp-fabric-service/src/federation.rs:113-124 | Exactly the well-formed deliveries can be signed, and one signed by the pinned authority is acceptable while it is in time. |
| `Candidates.Shared.constructor` | crates/libfcp-webrtc/src/session.rs:60-80 | Empty queues and no terminal event. |
| `Candidates.Shared.Stage` | crates/libfcp-webrtc/src/session/control.rs:28-33 | Pushes behind the queue and evicts the oldest entry of a full one. |
| `Candidates.Shared.TrySend` | crates/libfcp-webrtc/src/session/control.rs:22-27 | Sends unless the channel is full, in which case the signal is dropped. |
| `Candidates.Shared.TakeStaged` | crates/libfcp-webrtc/src/session.rs:242-249 | Takes the whole queue at once. |
| `Candidates.OneTerminalClaim` | crates/libfcp-webrtc/src/session/control.rs:40-49 | Over every interleaving of callers at most one claim is granted, and the flag is up exactly when one was. |
| `Candidates.FirstTerminalWins` | crates/libfcp-webrtc/src/session/control.rs:40-49 | At most one terminal event is ever sent, and it is the event of the first claim, whoever else ends the session later. |
| `Candidates.Conservation` | crates/libfcp-webrtc/src/session/control.rs:12-34 | In every state of every interleaving each generated candidate is in exactly one place, and both queues respect their bounds. |
| `Candidates.EmittedOnce` | crates/libfcp-webrtc/src/session.rs:241-254 | No candidate is emitted twice. |
| `Candidates.OldestIsEvicted` | crates/libfcp-webrtc/src/session/control.rs:28-33 | Between flushes the staged queue is the newest 64 of everything staged, in order, and the older ones were evicted oldest first. |
| `Candidates.EmittedInOrder` | crates/libfcp-webrtc/src/session/control.rs:22-27 | What was taken from the channel and what waits in it is every signed candidate sent while there was room, in the order of sending. |
| `Candidates.DroppedOnlyWhenFull` | crates/libfcp-webrtc/src/session/control.rs:12-34 | A candidate is dropped only at a poisoned lock or a full channel. |
| `Candidates.FlushKeepsOrder` | crates/libfcp-webrtc/src/session.rs:241-254 | A flush takes the whole staged queue and works through it from the front. |

## Left out

- Cryptographic primitives and key handling: parameters of the model, with the assumptions named above.
- SQL, connection pools and migrations: each transaction is one atomic step over maps; primary-key and unique constraints are error answers with rollback. Audit rows, correlation-id checks and the foreign key of the granting account are not modelled. The three expiry errors are one error here.
- Suspension and deactivation: the source reads these account states but has no operation that sets them; `Administration.Disable` stands for an operator who does, at any time.
- HTTP routing, cookies, CSRF, configuration and command line: only the order of the store calls of the login, enrolment, step-up and role-change handlers is modelled. An infrastructure failure ends a thread (`Abort`).
- Password hashing, seed encryption, KMS, WebAuthn ceremonies and recovery codes: wrappers over unseen libraries or a one-use pattern already covered; a passkey login appears as session creation without a code.
- `CfrEndpointBindings.bind` and `unbind`: thin wrappers over a map; the bindings appear as a map value.
- CFR messages and conferences: an identity is its 32 bytes and a payload is opaque.
- The peer-policy resolver and key fingerprints: every arrival carries whatever policy was resolved for it. Names are byte strings, so IDNA and Unicode normalisation are not modelled; the body digest uses the suite's digest in place of SHA-256.
- The WebRTC engine, SDP and data channels: only the staging queue, the signal channel and the terminal flag. Candidates are told apart by generation order, since the 32-bit sequence number may repeat.
- FFI, WASM and the bindings for other languages: thin wrappers over the core.
