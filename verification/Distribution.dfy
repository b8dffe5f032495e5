/** The configuration authority, the clients it serves, and how a client applies a snapshot. */
module Distribution {
  import opened Results
  import opened Bytes
  import opened Core
  import opened Configurations

  datatype ApplyError =
    | Rejected(error: Error)
    | NonIncreasingEpoch
    | WrongFederation
    | WrongAuthority
    | StaleConfiguration
    | WrongLocalEndpoint
    | MissingLocalMember

  type Bindings = map<Bytes32, EndpointIdentity>

  // ---- The authority ----

  /** The configuration a replacement leaves behind, if it is accepted. */
  function Replaced(c: Configuration, epoch: u64, members: seq<Member>): Result<Configuration, ApplyError> {
    if epoch <= c.epoch then Err(NonIncreasingEpoch)
    else
      var next := c.(epoch := epoch, members := members);
      var checked := Check(next);
      if checked.Fail? then Err(Rejected(checked.error)) else Ok(next)
  }

  class FederationServer {
    const signer: Signer
    var configuration: Configuration

    ghost predicate Valid()
      reads this
    {
      configuration.Valid() && configuration.authority == signer.endpoint
    }

    constructor (federation: FederationId, signer: Signer)
      ensures Valid() && this.signer == signer
      ensures configuration == Configuration(federation, signer.endpoint, 0, [])
    {
      this.signer := signer;
      configuration := Configuration(federation, signer.endpoint, 0, []);
    }

    method ReplaceMembers(epoch: u64, members: seq<Member>) returns (r: Outcome<ApplyError>)
      requires Valid()
      modifies this
      ensures Valid()
      ensures match Replaced(old(configuration), epoch, members)
              case Ok(next) => r == Pass && configuration == next
              case Err(e) => r == Fail(e) && configuration == old(configuration)
    {
      if epoch <= configuration.epoch { return Fail(NonIncreasingEpoch); }
      var next := Configuration(configuration.federation, configuration.authority, epoch, members);
      var checked := Validate(next);
      if checked.Fail? { return Fail(Rejected(checked.error)); }
      configuration := next;
      return Pass;
    }

    method Publish() returns (s: SignedConfiguration)
      requires Valid()
      ensures Sign(signer, configuration) == Ok(s) && s.configuration == configuration
    {
      var transcript := WriteSigned(configuration);
      return SignedConfiguration(configuration, signer.signClassical(transcript.value), signer.signPostQuantum(transcript.value));
    }
  }

  // ---- A client ----

  datatype Policy = Policy(
    federation: FederationId, authority: EndpointIdentity, localCfr: Bytes32, localEndpoint: EndpointIdentity)

  datatype Client = Client(policy: Policy, accepted: Option<u64>, bindings: Bindings)

  function NewClient(policy: Policy): Client {
    Client(policy, None, map[])
  }

  /** The remote members of a snapshot, by participant identity. */
  function Projection(c: Configuration, local: Bytes32): Bindings
    requires c.Valid()
  {
    map i | 0 <= i < |c.members| && c.members[i].cfrIdentity != local :: c.members[i].cfrIdentity := c.members[i].endpoint
  }

  predicate Lists(c: Configuration, identity: Bytes32) {
    exists i | 0 <= i < |c.members| :: c.members[i].cfrIdentity == identity
  }

  predicate Misplaces(c: Configuration, identity: Bytes32, endpoint: EndpointIdentity) {
    exists i | 0 <= i < |c.members| :: c.members[i].cfrIdentity == identity && c.members[i].endpoint != endpoint
  }

  /** The bindings a snapshot gives this client. */
  function Bound(c: Configuration, local: Bytes32, endpoint: EndpointIdentity): Result<Bindings, ApplyError>
    requires c.Valid()
  {
    if Misplaces(c, local, endpoint) then Err(WrongLocalEndpoint)
    else if !Lists(c, local) then Err(MissingLocalMember)
    else Ok(Projection(c, local))
  }

  /** `next` holds the remote ones among the first `k` members. */
  ghost predicate Binds(next: Bindings, c: Configuration, local: Bytes32, k: nat)
    requires k <= |c.members|
  {
    && (forall i | 0 <= i < k && c.members[i].cfrIdentity != local ::
          c.members[i].cfrIdentity in next && next[c.members[i].cfrIdentity] == c.members[i].endpoint)
    && (forall id | id in next :: id != local && exists i :: 0 <= i < k && c.members[i].cfrIdentity == id)
  }

  lemma BoundToAll(next: Bindings, c: Configuration, local: Bytes32, endpoint: EndpointIdentity, at: nat)
    requires c.Valid() && Binds(next, c, local, |c.members|) && !Misplaces(c, local, endpoint)
    requires at < |c.members| && c.members[at].cfrIdentity == local
    ensures Bound(c, local, endpoint) == Ok(next)
  {
    BindsAll(next, c, local);
    assert Lists(c, local);
  }

  lemma BindsAll(next: Bindings, c: Configuration, local: Bytes32)
    requires c.Valid() && Binds(next, c, local, |c.members|)
    ensures next == Projection(c, local)
  {
  }

  lemma BoundElsewhere(c: Configuration, local: Bytes32, endpoint: EndpointIdentity, at: nat)
    requires c.Valid() && at < |c.members| && c.members[at].cfrIdentity == local && c.members[at].endpoint != endpoint
    ensures Bound(c, local, endpoint) == Err(WrongLocalEndpoint)
  {
  }

  lemma BindsNext(next: Bindings, c: Configuration, local: Bytes32, k: nat)
    requires c.Valid() && k < |c.members| && Binds(next, c, local, k)
    ensures var m := c.members[k];
            Binds(if m.cfrIdentity == local then next else next[m.cfrIdentity := m.endpoint], c, local, k + 1)
  {
  }

  /** Where the local identity is among the first `k` members, if it is; there it has the local endpoint. */
  ghost predicate Seen(c: Configuration, local: Bytes32, endpoint: EndpointIdentity, k: nat, at: Option<nat>)
    requires k <= |c.members|
  {
    forall i | 0 <= i < k ::
      (c.members[i].cfrIdentity == local <==> at == Some(i)) && (at == Some(i) ==> c.members[i].endpoint == endpoint)
  }

  lemma NeverMisplaced(c: Configuration, local: Bytes32, endpoint: EndpointIdentity, at: Option<nat>)
    requires Seen(c, local, endpoint, |c.members|, at)
    ensures !Misplaces(c, local, endpoint) && (at.None? ==> !Lists(c, local))
  {
  }

  method BindMembers(c: Configuration, local: Bytes32, endpoint: EndpointIdentity) returns (r: Result<Bindings, ApplyError>)
    requires c.Valid()
    ensures r == Bound(c, local, endpoint)
  {
    var next: Bindings, localMemberSeen := map[], false;
    ghost var at: Option<nat> := None;
    for k := 0 to |c.members|
      invariant Binds(next, c, local, k) && Seen(c, local, endpoint, k, at)
      invariant localMemberSeen <==> at.Some?
      invariant at.Some? ==> at.value < k && c.members[at.value].cfrIdentity == local
    {
      BindsNext(next, c, local, k);
      var member := c.members[k];
      if member.cfrIdentity == local {
        if member.endpoint != endpoint {
          BoundElsewhere(c, local, endpoint, k);
          return Err(WrongLocalEndpoint);
        }
        localMemberSeen, at := true, Some(k);
      } else {
        next := next[member.cfrIdentity := member.endpoint];
      }
    }
    NeverMisplaced(c, local, endpoint, at);
    if !localMemberSeen { return Err(MissingLocalMember); }
    BoundToAll(next, c, local, endpoint, at.value);
    return Ok(next);
  }

  /** The client after a snapshot, or why the snapshot is rejected. */
  function Applied(suite: Suite, k: Client, s: SignedConfiguration): Result<Client, ApplyError> {
    var c := s.configuration;
    var checked := Verify(suite, s);
    if checked.Fail? then Err(Rejected(checked.error))
    else if c.federation != k.policy.federation then Err(ApplyError.WrongFederation)
    else if c.authority != k.policy.authority then Err(WrongAuthority)
    else if k.accepted.Some? && c.epoch <= k.accepted.value then Err(StaleConfiguration)
    else
      var bindings :- Bound(c, k.policy.localCfr, k.policy.localEndpoint);
      Ok(k.(accepted := Some(c.epoch), bindings := bindings))
  }

  class FederationClient {
    const policy: Policy
    var accepted: Option<u64>
    var bindings: Bindings

    constructor (policy: Policy)
      ensures this.policy == policy && State() == NewClient(policy)
    {
      this.policy := policy;
      accepted := None;
      bindings := map[];
    }

    function State(): Client
      reads this
    {
      Client(policy, accepted, bindings)
    }

    method ApplyConfiguration(suite: Suite, s: SignedConfiguration) returns (r: Outcome<ApplyError>)
      modifies this
      ensures match Applied(suite, old(State()), s)
              case Ok(next) => r == Pass && State() == next
              case Err(e) => r == Fail(e) && State() == old(State())
    {
      var c := s.configuration;
      var checked := Verify(suite, s);
      if checked.Fail? { return Fail(Rejected(checked.error)); }
      if c.federation != policy.federation { return Fail(ApplyError.WrongFederation); }
      if c.authority != policy.authority { return Fail(WrongAuthority); }
      if accepted.Some? && c.epoch <= accepted.value { return Fail(StaleConfiguration); }
      var next := BindMembers(c, policy.localCfr, policy.localEndpoint);
      if next.Err? { return Fail(next.error); }
      bindings := next.value;
      accepted := Some(c.epoch);
      return Pass;
    }
  }
}
