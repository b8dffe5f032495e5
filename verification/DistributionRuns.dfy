/** One authority, any number of clients, and a carrier that delivers any genuine snapshot at any time. */
module DistributionRuns {
  import opened Results
  import opened Core
  import opened Configurations
  import opened Distribution

  /** Every configuration the authority has held, oldest first, and the clients. */
  datatype World = World(held: seq<Configuration>, clients: map<nat, Client>)

  datatype Event =
    | Replace(epoch: u64, members: seq<Member>)
    | Join(client: nat, policy: Policy)
    | Deliver(client: nat, snapshot: SignedConfiguration)

  function Initial(federation: FederationId, authority: EndpointIdentity): World {
    World([Configuration(federation, authority, 0, [])], map[])
  }

  function Next(suite: Suite, w: World, e: Event): World
    requires w.held != []
  {
    match e
    case Replace(epoch, members) =>
      (match Replaced(w.held[|w.held| - 1], epoch, members)
       case Ok(next) => w.(held := w.held + [next])
       case Err(_) => w)
    case Join(k, policy) => if k in w.clients then w else w.(clients := w.clients[k := NewClient(policy)])
    case Deliver(k, snapshot) =>
      if k !in w.clients then w
      else
        (match Applied(suite, w.clients[k], snapshot)
         case Ok(client) => w.(clients := w.clients[k := client])
         case Err(_) => w)
  }

  /** Only snapshots the authority held carry its two signatures. */
  predicate Unforged(suite: Suite, w: World, e: Event)
    requires w.held != []
  {
    e.Deliver? && Verify(suite, e.snapshot).Pass? && e.snapshot.configuration.authority == w.held[0].authority ==>
      e.snapshot.configuration in w.held
  }

  ghost predicate IsRun(suite: Suite, federation: FederationId, authority: EndpointIdentity, worlds: seq<World>, events: seq<Event>) {
    && |worlds| == |events| + 1
    && worlds[0] == Initial(federation, authority)
    && (forall i | 0 <= i < |worlds| :: worlds[i].held != [])
    && (forall i | 0 <= i < |events| :: worlds[i + 1] == Next(suite, worlds[i], events[i]))
    && (forall i | 0 <= i < |events| :: Unforged(suite, worlds[i], events[i]))
  }

  // ---- What every step keeps ----

  /** The authority's history: valid snapshots of one federation with strictly increasing epochs. */
  ghost predicate History(federation: FederationId, authority: EndpointIdentity, held: seq<Configuration>) {
    && held != []
    && (forall i | 0 <= i < |held| :: held[i].Valid() && held[i].federation == federation && held[i].authority == authority)
    && (forall i, j | 0 <= i < j < |held| :: held[i].epoch < held[j].epoch)
  }

  /** The client's bindings are what this snapshot gives it. */
  ghost predicate Reflects(client: Client, c: Configuration) {
    && c.Valid() && client.accepted == Some(c.epoch) && client.policy.federation == c.federation
    && Bound(c, client.policy.localCfr, client.policy.localEndpoint) == Ok(client.bindings)
  }

  ghost predicate ClientInv(client: Client, held: seq<Configuration>) {
    if client.accepted.None? then client.bindings == map[]
    else exists i :: 0 <= i < |held| && Reflects(client, held[i])
  }

  ghost predicate Inv(federation: FederationId, authority: EndpointIdentity, w: World) {
    && History(federation, authority, w.held)
    && forall k | k in w.clients && w.clients[k].policy.authority == authority :: ClientInv(w.clients[k], w.held)
  }

  lemma ReplaceKeepsHistory(federation: FederationId, authority: EndpointIdentity, held: seq<Configuration>, epoch: u64, members: seq<Member>)
    requires History(federation, authority, held)
    ensures var next := Replaced(held[|held| - 1], epoch, members);
            next.Ok? ==> History(federation, authority, held + [next.value])
  {
  }

  lemma HeldGrows(client: Client, held: seq<Configuration>, more: seq<Configuration>)
    requires ClientInv(client, held)
    ensures ClientInv(client, held + more)
  {
    if client.accepted.Some? {
      var i :| 0 <= i < |held| && Reflects(client, held[i]);
      assert (held + more)[i] == held[i];
    }
  }

  lemma AppliedReflects(suite: Suite, client: Client, s: SignedConfiguration)
    requires Applied(suite, client, s).Ok?
    ensures var next := Applied(suite, client, s).value;
            && Verify(suite, s).Pass? && s.configuration.authority == client.policy.authority
            && Reflects(next, s.configuration) && next.policy == client.policy
            && (client.accepted.Some? ==> client.accepted.value < next.accepted.value)
  {
  }

  lemma NextKeeps(suite: Suite, federation: FederationId, authority: EndpointIdentity, w: World, e: Event)
    requires Inv(federation, authority, w) && Unforged(suite, w, e)
    ensures Inv(federation, authority, Next(suite, w, e))
  {
    match e
    case Replace(epoch, members) =>
      ReplaceKeepsHistory(federation, authority, w.held, epoch, members);
      var more := Next(suite, w, e).held[|w.held|..];
      assert Next(suite, w, e).held == w.held + more;
      forall k | k in w.clients && w.clients[k].policy.authority == authority
        ensures ClientInv(w.clients[k], w.held + more)
      {
        HeldGrows(w.clients[k], w.held, more);
      }
    case Join(_, _) =>
    case Deliver(k, s) =>
      if k in w.clients && Applied(suite, w.clients[k], s).Ok? {
        AppliedReflects(suite, w.clients[k], s);
      }
  }

  lemma {:induction false} RunKeeps(suite: Suite, federation: FederationId, authority: EndpointIdentity, worlds: seq<World>, events: seq<Event>, n: nat)
    requires IsRun(suite, federation, authority, worlds, events) && n < |worlds|
    ensures Inv(federation, authority, worlds[n])
  {
    if n > 0 {
      RunKeeps(suite, federation, authority, worlds, events, n - 1);
      NextKeeps(suite, federation, authority, worlds[n - 1], events[n - 1]);
    }
  }

  // ---- What clients can rely on ----

  /** A client's bindings are the projection of the one snapshot the authority held at its epoch. */
  lemma BindingsAreASnapshot(suite: Suite, federation: FederationId, authority: EndpointIdentity, worlds: seq<World>, events: seq<Event>, n: nat, k: nat)
    returns (i: nat)
    requires IsRun(suite, federation, authority, worlds, events) && n < |worlds|
    requires k in worlds[n].clients && worlds[n].clients[k].policy.authority == authority
    requires worlds[n].clients[k].accepted.Some?
    ensures var held, client := worlds[n].held, worlds[n].clients[k];
            && i < |held| && held[i].Valid() && client.bindings == Projection(held[i], client.policy.localCfr)
            && forall j | 0 <= j < |held| :: held[j].epoch == client.accepted.value <==> j == i
  {
    RunKeeps(suite, federation, authority, worlds, events, n);
    var held, client := worlds[n].held, worlds[n].clients[k];
    i :| 0 <= i < |held| && Reflects(client, held[i]);
  }

  /** Epochs never fall and clients never leave or change policy. */
  lemma {:induction false} EpochNeverFalls(suite: Suite, federation: FederationId, authority: EndpointIdentity, worlds: seq<World>, events: seq<Event>, m: nat, n: nat, k: nat)
    requires IsRun(suite, federation, authority, worlds, events) && m <= n < |worlds| && k in worlds[m].clients
    ensures k in worlds[n].clients
    ensures var before, after := worlds[m].clients[k], worlds[n].clients[k];
            && after.policy == before.policy
            && (before.accepted.Some? ==> after.accepted.Some? && before.accepted.value <= after.accepted.value)
            && (after.accepted == before.accepted ==> after == before)
    decreases n
  {
    if m < n {
      EpochNeverFalls(suite, federation, authority, worlds, events, m, n - 1, k);
      ClientStep(suite, worlds[n - 1], events[n - 1], k);
    }
  }

  /** A step either leaves a client alone or raises its epoch. */
  lemma ClientStep(suite: Suite, w: World, e: Event, k: nat)
    requires w.held != [] && k in w.clients
    ensures k in Next(suite, w, e).clients
    ensures var before, after := w.clients[k], Next(suite, w, e).clients[k];
            || after == before
            || (after.policy == before.policy && after.accepted.Some?
                && (before.accepted.Some? ==> before.accepted.value < after.accepted.value))
  {
    if e.Deliver? && e.client == k && Applied(suite, w.clients[k], e.snapshot).Ok? {
      AppliedReflects(suite, w.clients[k], e.snapshot);
    }
  }

  /** Two clients at the same epoch agree on everyone but themselves. */
  lemma SameEpochAgrees(suite: Suite, federation: FederationId, authority: EndpointIdentity, worlds: seq<World>, events: seq<Event>, n: nat, k: nat, l: nat)
    requires IsRun(suite, federation, authority, worlds, events) && n < |worlds|
    requires k in worlds[n].clients && worlds[n].clients[k].policy.authority == authority
    requires l in worlds[n].clients && worlds[n].clients[l].policy.authority == authority
    requires worlds[n].clients[k].accepted.Some? && worlds[n].clients[k].accepted == worlds[n].clients[l].accepted
    ensures var a, b := worlds[n].clients[k], worlds[n].clients[l];
            forall id | id != a.policy.localCfr && id != b.policy.localCfr ::
              && (id in a.bindings <==> id in b.bindings)
              && (id in a.bindings ==> a.bindings[id] == b.bindings[id])
  {
    var i := BindingsAreASnapshot(suite, federation, authority, worlds, events, n, k);
    var j := BindingsAreASnapshot(suite, federation, authority, worlds, events, n, l);
    assert i == j;
  }

  /** Bindings never share an endpoint, never name the client and never point at its own endpoint. */
  ghost predicate Separate(client: Client) {
    && (forall a, b | a in client.bindings && b in client.bindings && a != b :: client.bindings[a] != client.bindings[b])
    && (forall a | a in client.bindings :: a != client.policy.localCfr && client.bindings[a] != client.policy.localEndpoint)
  }

  /** Where a bound identity is listed. */
  lemma BoundAt(c: Configuration, local: Bytes32, id: Bytes32) returns (i: nat)
    requires c.Valid() && id in Projection(c, local)
    ensures i < |c.members| && c.members[i].cfrIdentity == id != local && Projection(c, local)[id] == c.members[i].endpoint
  {
    i :| 0 <= i < |c.members| && c.members[i].cfrIdentity == id;
  }

  lemma ReflectsSeparate(client: Client, c: Configuration)
    requires Reflects(client, c)
    ensures Separate(client)
  {
    var local, own := client.policy.localCfr, client.policy.localEndpoint;
    assert client.bindings == Projection(c, local) && !Misplaces(c, local, own) && Lists(c, local);
    var mine :| 0 <= mine < |c.members| && c.members[mine].cfrIdentity == local;
    forall a | a in client.bindings
      ensures a != local && client.bindings[a] != own
    {
      var i := BoundAt(c, local, a);
      EndpointsDiffer(c, i, mine);
    }
    forall a, b | a in client.bindings && b in client.bindings && a != b
      ensures client.bindings[a] != client.bindings[b]
    {
      var i := BoundAt(c, local, a);
      var j := BoundAt(c, local, b);
      EndpointsDiffer(c, i, j);
    }
  }

  lemma EndpointsDiffer(c: Configuration, i: nat, j: nat)
    requires c.Valid() && i < |c.members| && j < |c.members| && i != j
    ensures c.members[i].endpoint != c.members[j].endpoint
  {
    if i < j {
      assert c.members[i].endpoint != c.members[j].endpoint;
    } else {
      assert c.members[j].endpoint != c.members[i].endpoint;
    }
  }

  /** After any accepted snapshot the binding map is injective and avoids the client's own endpoint. */
  lemma BindingsAreSeparate(suite: Suite, federation: FederationId, authority: EndpointIdentity, worlds: seq<World>, events: seq<Event>, n: nat, k: nat)
    requires IsRun(suite, federation, authority, worlds, events) && n < |worlds|
    requires k in worlds[n].clients && worlds[n].clients[k].policy.authority == authority
    ensures Separate(worlds[n].clients[k])
  {
    RunKeeps(suite, federation, authority, worlds, events, n);
    var client := worlds[n].clients[k];
    if client.accepted.Some? {
      var i :| 0 <= i < |worlds[n].held| && Reflects(client, worlds[n].held[i]);
      ReflectsSeparate(client, worlds[n].held[i]);
    }
  }

  // ---- What the authority was given is what clients bind ----

  predicate NoneRepeated(members: seq<Member>) {
    forall i, j | 0 <= i < |members| && 0 <= j < |members| && i != j ::
      members[i].cfrIdentity != members[j].cfrIdentity && members[i].endpoint != members[j].endpoint
  }

  lemma DistinctNoneRepeated(c: Configuration)
    ensures c.Distinct() <==> NoneRepeated(c.members)
  {
    if c.Distinct() {
      forall i, j | 0 <= i < |c.members| && 0 <= j < |c.members| && i != j
        ensures c.members[i].cfrIdentity != c.members[j].cfrIdentity && c.members[i].endpoint != c.members[j].endpoint
      {
        var low, high := if i < j then i else j, if i < j then j else i;
        assert c.members[low].cfrIdentity != c.members[high].cfrIdentity && c.members[low].endpoint != c.members[high].endpoint;
      }
    }
  }

  /** A replacement is accepted exactly for a greater epoch and few enough members without repetition, and is then held as given. */
  lemma ReplacedExactly(c: Configuration, epoch: u64, members: seq<Member>)
    ensures var r := Replaced(c, epoch, members);
            && (r.Ok? <==> epoch > c.epoch && |members| <= MAX_FEDERATION_MEMBERS && NoneRepeated(members))
            && (r.Ok? ==> r.value == Configuration(c.federation, c.authority, epoch, members))
            && (r == Err(NonIncreasingEpoch) <==> epoch <= c.epoch)
            && (r == Err(Rejected(TooManyFederationMembers)) <==> epoch > c.epoch && |members| > MAX_FEDERATION_MEMBERS)
  {
    DistinctNoneRepeated(Configuration(c.federation, c.authority, epoch, members));
  }

  /** The request that put a held snapshot there; the first one, which nobody asked for, is empty. */
  lemma {:induction false} HeldWasGiven(suite: Suite, federation: FederationId, authority: EndpointIdentity, worlds: seq<World>, events: seq<Event>, n: nat, i: nat)
    returns (j: nat)
    requires IsRun(suite, federation, authority, worlds, events) && n < |worlds| && 0 < i < |worlds[n].held|
    ensures j < n && events[j] == Replace(worlds[n].held[i].epoch, worlds[n].held[i].members)
    ensures worlds[j + 1].held == worlds[n].held[..i + 1]
  {
    assert n > 0;
    var held := worlds[n - 1].held;
    HeldStep(suite, worlds[n - 1], events[n - 1]);
    if i < |held| {
      j := HeldWasGiven(suite, federation, authority, worlds, events, n - 1, i);
      assert held[..i + 1] == worlds[n].held[..i + 1];
    } else {
      j := n - 1;
      assert worlds[n].held == worlds[n].held[..i + 1];
    }
  }

  lemma HeldStep(suite: Suite, w: World, e: Event)
    requires w.held != []
    ensures var held := Next(suite, w, e).held;
            || held == w.held
            || (e.Replace? && |held| == |w.held| + 1 && held[..|w.held|] == w.held
                && held[|w.held|].epoch == e.epoch && held[|w.held|].members == e.members)
  {
    if e.Replace? {
      ReplacedExactly(w.held[|w.held| - 1], e.epoch, e.members);
    }
  }

  lemma {:induction false} FirstHeld(suite: Suite, federation: FederationId, authority: EndpointIdentity, worlds: seq<World>, events: seq<Event>, n: nat)
    requires IsRun(suite, federation, authority, worlds, events) && n < |worlds|
    ensures worlds[n].held[0].members == []
  {
    if n > 0 {
      FirstHeld(suite, federation, authority, worlds, events, n - 1);
      HeldStep(suite, worlds[n - 1], events[n - 1]);
      assert worlds[n - 1].held == worlds[n].held[..|worlds[n - 1].held|];
    }
  }

  /** The client is among these members at its own endpoint, and its bindings are exactly the others. */
  ghost predicate BindsTheOthers(client: Client, members: seq<Member>) {
    && Member(client.policy.localCfr, client.policy.localEndpoint) in members
    && (forall m | m in members && m.cfrIdentity != client.policy.localCfr ::
          m.cfrIdentity in client.bindings && client.bindings[m.cfrIdentity] == m.endpoint)
    && (forall id | id in client.bindings :: id != client.policy.localCfr && Member(id, client.bindings[id]) in members)
  }

  /** Being listed and not misplaced is being a member at the own endpoint. */
  lemma ListedIsMember(c: Configuration, local: Bytes32, endpoint: EndpointIdentity)
    requires c.Valid()
    ensures Lists(c, local) && !Misplaces(c, local, endpoint) <==> Member(local, endpoint) in c.members
  {
    if Member(local, endpoint) in c.members {
      var i :| 0 <= i < |c.members| && c.members[i] == Member(local, endpoint);
      forall j | 0 <= j < |c.members| && c.members[j].cfrIdentity == local
        ensures j == i
      {
        DistinctNoneRepeated(c);
      }
    }
  }

  lemma BoundIsMember(c: Configuration, local: Bytes32, id: Bytes32)
    requires c.Valid() && id in Projection(c, local)
    ensures id != local && Member(id, Projection(c, local)[id]) in c.members
  {
    var i := BoundAt(c, local, id);
    assert c.members[i] == Member(id, Projection(c, local)[id]);
  }

  lemma MemberIsBound(c: Configuration, local: Bytes32, m: Member)
    requires c.Valid() && m in c.members && m.cfrIdentity != local
    ensures m.cfrIdentity in Projection(c, local) && Projection(c, local)[m.cfrIdentity] == m.endpoint
  {
    var i :| 0 <= i < |c.members| && c.members[i] == m;
    assert m.cfrIdentity in Projection(c, local);
    var j := BoundAt(c, local, m.cfrIdentity);
    DistinctNoneRepeated(c);
    assert i == j;
  }

  lemma ReflectsTheOthers(client: Client, c: Configuration)
    requires Reflects(client, c)
    ensures BindsTheOthers(client, c.members)
  {
    var local := client.policy.localCfr;
    ListedIsMember(c, local, client.policy.localEndpoint);
    var bindings := Projection(c, local);
    forall id | id in bindings
      ensures id != local && Member(id, bindings[id]) in c.members
    {
      BoundIsMember(c, local, id);
    }
    forall m | m in c.members && m.cfrIdentity != local
      ensures m.cfrIdentity in bindings && bindings[m.cfrIdentity] == m.endpoint
    {
      MemberIsBound(c, local, m);
    }
  }

  /** A client at an epoch binds exactly the others among the members the authority was given for that epoch. */
  lemma BindingsAreAsGiven(suite: Suite, federation: FederationId, authority: EndpointIdentity, worlds: seq<World>, events: seq<Event>, n: nat, k: nat)
    returns (j: nat)
    requires IsRun(suite, federation, authority, worlds, events) && n < |worlds|
    requires k in worlds[n].clients && worlds[n].clients[k].policy.authority == authority
    requires worlds[n].clients[k].accepted.Some?
    ensures j < n && events[j].Replace? && events[j].epoch == worlds[n].clients[k].accepted.value
    ensures BindsTheOthers(worlds[n].clients[k], events[j].members)
  {
    RunKeeps(suite, federation, authority, worlds, events, n);
    var held, client := worlds[n].held, worlds[n].clients[k];
    var i :| 0 <= i < |held| && Reflects(client, held[i]);
    ReflectsTheOthers(client, held[i]);
    FirstHeld(suite, federation, authority, worlds, events, n);
    assert i > 0;
    j := HeldWasGiven(suite, federation, authority, worlds, events, n, i);
  }

  /** A snapshot is applied exactly when it verifies, is for this client's federation and authority, is newer, and lists the client at its endpoint. */
  lemma AppliedExactly(suite: Suite, client: Client, s: SignedConfiguration)
    ensures var r, c := Applied(suite, client, s), s.configuration;
            && (r.Ok? <==>
                  && Verify(suite, s).Pass? && c.federation == client.policy.federation && c.authority == client.policy.authority
                  && (client.accepted.None? || client.accepted.value < c.epoch)
                  && Member(client.policy.localCfr, client.policy.localEndpoint) in c.members)
            && (r.Ok? ==> r.value.policy == client.policy && r.value.accepted == Some(c.epoch) && BindsTheOthers(r.value, c.members))
  {
    if Verify(suite, s).Pass? {
      ListedIsMember(s.configuration, client.policy.localCfr, client.policy.localEndpoint);
    }
    if Applied(suite, client, s).Ok? {
      AppliedReflects(suite, client, s);
      ReflectsTheOthers(Applied(suite, client, s).value, s.configuration);
    }
  }

  /** What an error says of the snapshot it refuses. */
  ghost predicate Explains(suite: Suite, client: Client, s: SignedConfiguration, e: ApplyError) {
    var c, policy := s.configuration, client.policy;
    match e
    case Rejected(error) => Verify(suite, s) == Fail(error)
    case WrongFederation => c.federation != policy.federation
    case WrongAuthority => c.authority != policy.authority
    case StaleConfiguration => client.accepted.Some? && c.epoch <= client.accepted.value
    case WrongLocalEndpoint => exists m :: m in c.members && m.cfrIdentity == policy.localCfr && m.endpoint != policy.localEndpoint
    case MissingLocalMember => forall m | m in c.members :: m.cfrIdentity != policy.localCfr
    case NonIncreasingEpoch => false
  }

  /** Every refusal of a snapshot gives a true reason. */
  lemma RefusalsAreTrue(suite: Suite, client: Client, s: SignedConfiguration)
    ensures var r := Applied(suite, client, s); r.Err? ==> Explains(suite, client, s, r.error)
  {
    var r, c, policy := Applied(suite, client, s), s.configuration, client.policy;
    if r == Err(WrongLocalEndpoint) {
      var i :| 0 <= i < |c.members| && c.members[i].cfrIdentity == policy.localCfr && c.members[i].endpoint != policy.localEndpoint;
      assert c.members[i] in c.members;
    }
  }

  lemma SignedPasses(suite: Suite, signer: Signer, c: Configuration)
    requires signer.Correct(suite) && signer.endpoint == c.authority && c.Valid()
    ensures Sign(signer, c).Ok? && Sign(signer, c).value.configuration == c && Verify(suite, Sign(signer, c).value).Pass?
  {
    assert suite.Verify(signer.endpoint, c.Signed(), signer.signClassical(c.Signed()), signer.signPostQuantum(c.Signed())).Pass?;
  }

  /** Whatever snapshot a correct authority ever held and signs, a client that it lists and that is not past it takes it when it is delivered. */
  lemma GenuineIsAccepted(suite: Suite, federation: FederationId, signer: Signer, worlds: seq<World>, events: seq<Event>, n: nat, i: nat, k: nat)
    requires IsRun(suite, federation, signer.endpoint, worlds, events) && n < |worlds| && i < |worlds[n].held|
    requires signer.Correct(suite) && k in worlds[n].clients
    requires var policy := worlds[n].clients[k].policy;
             && policy.federation == federation && policy.authority == signer.endpoint
             && Member(policy.localCfr, policy.localEndpoint) in worlds[n].held[i].members
    requires worlds[n].clients[k].accepted.None? || worlds[n].clients[k].accepted.value < worlds[n].held[i].epoch
    ensures Sign(signer, worlds[n].held[i]).Ok?
    ensures var after := Next(suite, worlds[n], Deliver(k, Sign(signer, worlds[n].held[i]).value)).clients;
            k in after && after[k].accepted == Some(worlds[n].held[i].epoch) && BindsTheOthers(after[k], worlds[n].held[i].members)
  {
    RunKeeps(suite, federation, signer.endpoint, worlds, events, n);
    SignedPasses(suite, signer, worlds[n].held[i]);
    AppliedExactly(suite, worlds[n].clients[k], Sign(signer, worlds[n].held[i]).value);
  }
}
