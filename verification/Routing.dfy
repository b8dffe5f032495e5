/** Routing of outbound CFR messages over the bindings and the directory of peer connections. */
module Routing {
  import opened Results
  import opened Bytes
  import opened Core
  import opened Envelopes
  import opened Connections
  import opened Distribution
  import DistributionRuns

  datatype RouteError = MissingBinding | MissingConnection | MismatchedConnection | Fcp(error: Error)
  datatype Recipient = Peer(identity: Bytes32) | Everyone

  type Directory = map<EndpointIdentity, Conn>

  // ---- Key order ----

  /** Byte-wise lexicographic order. */
  predicate Less(a: seq<byte>, b: seq<byte>)
    decreases |a|
  {
    if a == [] then b != []
    else b != [] && (a[0] < b[0] || (a[0] == b[0] && Less(a[1..], b[1..])))
  }

  lemma {:induction false} LessTrichotomy(a: seq<byte>, b: seq<byte>)
    ensures Less(a, b) || a == b || Less(b, a)
    ensures !(Less(a, b) && Less(b, a)) && !Less(a, a)
  {
    if a != [] && b != [] {
      LessTrichotomy(a[1..], b[1..]);
      LessTrichotomy(a[1..], a[1..]);
      assert a == [a[0]] + a[1..] && b == [b[0]] + b[1..];
    } else if a != [] {
      LessTrichotomy(a[1..], a[1..]);
    }
  }

  lemma {:induction false} LessTransitive(a: seq<byte>, b: seq<byte>, c: seq<byte>)
    requires Less(a, b) && Less(b, c)
    ensures Less(a, c)
  {
    if a != [] && a[0] == b[0] == c[0] {
      LessTransitive(a[1..], b[1..], c[1..]);
    }
  }

  /** `keys` lists exactly these identities, in ascending order. */
  ghost predicate InKeyOrder(keys: seq<Bytes32>, identities: set<Bytes32>) {
    && (forall i, j | 0 <= i < j < |keys| :: Less(keys[i], keys[j]))
    && (forall id :: id in keys <==> id in identities)
  }

  method Least(s: set<Bytes32>) returns (least: Bytes32)
    requires s != {}
    ensures least in s && forall x | x in s && x != least :: Less(least, x)
  {
    least :| least in s;
    var rest := s - {least};
    while rest != {}
      invariant least in s && rest <= s - {least}
      invariant forall x | x in s && x != least && x !in rest :: Less(least, x)
    {
      var x :| x in rest;
      LessTrichotomy(least, x);
      if Less(x, least) {
        forall y | y in s && y != x && y !in rest - {x}
          ensures Less(x, y)
        {
          if y != least {
            LessTransitive(x, least, y);
          }
        }
        least := x;
      }
      rest := rest - {x};
    }
  }

  /** The identities of a binding map as its iterator yields them. */
  method Identities(bindings: Bindings) returns (keys: seq<Bytes32>)
    ensures InKeyOrder(keys, bindings.Keys)
  {
    keys := [];
    var rest := bindings.Keys;
    while rest != {}
      invariant rest <= bindings.Keys
      invariant InKeyOrder(keys, bindings.Keys - rest)
      invariant forall i, x | 0 <= i < |keys| && x in rest :: Less(keys[i], x)
    {
      var least := Least(rest);
      keys := keys + [least];
      rest := rest - {least};
    }
    assert bindings.Keys - rest == bindings.Keys;
  }

  // ---- Routing ----

  function RouteOne(bindings: Bindings, directory: Directory, signer: Signer, payload: seq<byte>, identity: Bytes32)
    : Result<seq<Action>, RouteError>
  {
    if identity !in bindings then Err(MissingBinding)
    else if bindings[identity] !in directory then Err(MissingConnection)
    else match CfrControlResult(directory[bindings[identity]], signer, payload)
      case Ok(actions) => Ok(actions)
      case Err(e) => Err(Fcp(e))
  }

  function RouteEach(bindings: Bindings, directory: Directory, signer: Signer, payload: seq<byte>, keys: seq<Bytes32>)
    : Result<seq<Action>, RouteError>
  {
    if keys == [] then Ok([])
    else
      var actions :- RouteEach(bindings, directory, signer, payload, keys[..|keys| - 1]);
      var more :- RouteOne(bindings, directory, signer, payload, keys[|keys| - 1]);
      Ok(actions + more)
  }

  /** A message for everyone goes to every bound identity in key order, or to nobody. */
  method RouteOutbound(bindings: Bindings, directory: Directory, signer: Signer, payload: seq<byte>, to: Recipient)
    returns (r: Result<seq<Action>, RouteError>, ghost keys: seq<Bytes32>)
    ensures to.Peer? ==> r == RouteOne(bindings, directory, signer, payload, to.identity)
    ensures to.Everyone? ==> InKeyOrder(keys, bindings.Keys) && r == RouteEach(bindings, directory, signer, payload, keys)
  {
    if to.Peer? {
      return RouteOne(bindings, directory, signer, payload, to.identity), [];
    }
    var identities := Identities(bindings);
    keys := identities;
    var actions: seq<Action> := [];
    for i := 0 to |identities|
      invariant keys == identities
      invariant RouteEach(bindings, directory, signer, payload, identities[..i]) == Ok(actions)
    {
      var more := RouteOne(bindings, directory, signer, payload, identities[i]);
      assert identities[..i + 1][..i] == identities[..i];
      if more.Err? {
        FailureStands(bindings, directory, signer, payload, identities, i + 1);
        return Err(more.error), keys;
      }
      actions := actions + more.value;
    }
    assert identities[..|identities|] == identities;
    return Ok(actions), keys;
  }

  /** A failure part way is the failure of the whole. */
  lemma {:induction false} FailureStands(bindings: Bindings, directory: Directory, signer: Signer, payload: seq<byte>, keys: seq<Bytes32>, n: nat)
    requires n <= |keys| && RouteEach(bindings, directory, signer, payload, keys[..n]).Err?
    ensures RouteEach(bindings, directory, signer, payload, keys) == RouteEach(bindings, directory, signer, payload, keys[..n])
  {
    if n == |keys| {
      assert keys[..n] == keys;
    } else {
      var init := keys[..|keys| - 1];
      assert init[..n] == keys[..n];
      FailureStands(bindings, directory, signer, payload, init, n);
    }
  }

  // ---- The directory ----

  /** Every entry is a connection of this federation and endpoint to the endpoint it is filed under. */
  ghost predicate Pinned(directory: Directory, federation: FederationId, local: EndpointIdentity) {
    forall e | e in directory ::
      directory[e].remote == e && directory[e].federation == federation && directory[e].local == local
  }

  class PeerConnections {
    const federation: FederationId
    const local: EndpointIdentity
    var entries: Directory

    ghost predicate Valid()
      reads this
    {
      Pinned(entries, federation, local)
    }

    constructor (federation: FederationId, local: EndpointIdentity)
      ensures Valid() && this.federation == federation && this.local == local && entries == map[]
    {
      this.federation := federation;
      this.local := local;
      entries := map[];
    }

    method Insert(connection: Conn) returns (r: Result<Option<Conn>, RouteError>)
      requires Valid()
      modifies this
      ensures Valid()
      ensures if connection.federation != federation || connection.local != local then
                r == Err(MismatchedConnection) && entries == old(entries)
              else
                && entries == old(entries)[connection.remote := connection]
                && r == Ok(if connection.remote in old(entries) then Some(old(entries)[connection.remote]) else None)
    {
      if connection.federation != federation || connection.local != local { return Err(MismatchedConnection); }
      var previous := if connection.remote in entries then Some(entries[connection.remote]) else None;
      entries := entries[connection.remote := connection];
      return Ok(previous);
    }

    method Remove(endpoint: EndpointIdentity) returns (removed: Option<Conn>)
      requires Valid()
      modifies this
      ensures Valid() && entries == old(entries) - {endpoint}
      ensures removed == if endpoint in old(entries) then Some(old(entries)[endpoint]) else None
    {
      removed := if endpoint in entries then Some(entries[endpoint]) else None;
      entries := entries - {endpoint};
    }
  }

  // ---- What a route does ----

  /** The one envelope that carries the payload to a bound endpoint. */
  ghost predicate Carries(action: Action, federation: FederationId, local: EndpointIdentity, endpoint: EndpointIdentity, payload: seq<byte>) {
    && action.Send?
    && action.envelope.federation == federation && action.envelope.sender == local
    && action.envelope.recipient == endpoint && action.envelope.body == CfrControl(payload)
  }

  /** One of the actions carries the payload to the endpoint. */
  ghost predicate Reaches(actions: seq<Action>, federation: FederationId, local: EndpointIdentity, endpoint: EndpointIdentity, payload: seq<byte>) {
    exists i :: 0 <= i < |actions| && Carries(actions[i], federation, local, endpoint, payload)
  }

  /** The signer is local, the payload bounded, and every listed identity bound to an established connection. */
  ghost predicate Routable(bindings: Bindings, directory: Directory, local: EndpointIdentity, signer: Signer, payload: seq<byte>, keys: seq<Bytes32>) {
    forall i | 0 <= i < |keys| ::
      && keys[i] in bindings && bindings[keys[i]] in directory && directory[bindings[keys[i]]].phase == Established
      && signer.endpoint == local && |payload| <= MAX_CFR_CONTROL_BYTES
  }

  lemma RouteOneExactly(bindings: Bindings, directory: Directory, federation: FederationId, local: EndpointIdentity,
                        signer: Signer, payload: seq<byte>, identity: Bytes32)
    requires Pinned(directory, federation, local)
    ensures var r := RouteOne(bindings, directory, signer, payload, identity);
            && (r.Ok? <==> Routable(bindings, directory, local, signer, payload, [identity]))
            && (r.Ok? ==> |r.value| == 1 && Carries(r.value[0], federation, local, bindings[identity], payload))
            && (r == Err(MissingBinding) <==> identity !in bindings)
            && (r == Err(MissingConnection) <==> identity in bindings && bindings[identity] !in directory)
  {
    assert [identity][0] == identity;
  }

  /**
   * A route over some identities succeeds exactly when each is routable, and then yields one envelope per identity,
   * in order, addressed to the bound endpoint with the payload unchanged.
   */
  lemma {:induction false} RouteEachExactly(bindings: Bindings, directory: Directory, federation: FederationId, local: EndpointIdentity,
                                            signer: Signer, payload: seq<byte>, keys: seq<Bytes32>)
    requires Pinned(directory, federation, local)
    ensures var r := RouteEach(bindings, directory, signer, payload, keys);
            && (r.Ok? <==> Routable(bindings, directory, local, signer, payload, keys))
            && (r.Ok? ==> |r.value| == |keys| && forall i | 0 <= i < |keys| ::
                  keys[i] in bindings && Carries(r.value[i], federation, local, bindings[keys[i]], payload))
  {
    if keys != [] {
      var init, last := keys[..|keys| - 1], keys[|keys| - 1];
      RouteEachExactly(bindings, directory, federation, local, signer, payload, init);
      RouteOneExactly(bindings, directory, federation, local, signer, payload, last);
      RoutableSplits(bindings, directory, local, signer, payload, keys);
    }
  }

  lemma RoutableSplits(bindings: Bindings, directory: Directory, local: EndpointIdentity, signer: Signer, payload: seq<byte>, keys: seq<Bytes32>)
    requires keys != []
    ensures Routable(bindings, directory, local, signer, payload, keys)
            <==> (&& Routable(bindings, directory, local, signer, payload, keys[..|keys| - 1])
                  && Routable(bindings, directory, local, signer, payload, [keys[|keys| - 1]]))
  {
    var init, last := keys[..|keys| - 1], keys[|keys| - 1];
    if Routable(bindings, directory, local, signer, payload, keys) {
      assert forall i | 0 <= i < |init| :: init[i] == keys[i];
    }
    if Routable(bindings, directory, local, signer, payload, init) && Routable(bindings, directory, local, signer, payload, [last]) {
      assert [last][0] == last;
      forall i | 0 <= i < |keys|
        ensures keys[i] in bindings && bindings[keys[i]] in directory && directory[bindings[keys[i]]].phase == Established
        ensures signer.endpoint == local && |payload| <= MAX_CFR_CONTROL_BYTES
      {
        if i < |init| { assert init[i] == keys[i]; }
      }
    }
  }

  lemma {:induction false} KeysCounted(keys: seq<Bytes32>, identities: set<Bytes32>)
    requires InKeyOrder(keys, identities)
    ensures |keys| == |identities|
  {
    if keys == [] {
      assert identities == {};
    } else {
      var init, last := keys[..|keys| - 1], keys[|keys| - 1];
      LessTrichotomy(last, last);
      forall id
        ensures id in init <==> id in identities - {last}
      {
        if id in identities - {last} {
          var i :| 0 <= i < |keys| && keys[i] == id;
          assert init[i] == id;
        }
      }
      KeysCounted(init, identities - {last});
    }
  }

  /** Over an injective binding map, a route to everyone reaches each bound endpoint exactly once. */
  lemma EveryoneOnce(bindings: Bindings, directory: Directory, federation: FederationId, local: EndpointIdentity,
                     signer: Signer, payload: seq<byte>, keys: seq<Bytes32>)
    requires Pinned(directory, federation, local) && InKeyOrder(keys, bindings.Keys)
    requires forall a, b | a in bindings && b in bindings && a != b :: bindings[a] != bindings[b]
    requires RouteEach(bindings, directory, signer, payload, keys).Ok?
    ensures var actions := RouteEach(bindings, directory, signer, payload, keys).value;
            && |actions| == |bindings|
            && (forall i | 0 <= i < |actions| :: actions[i].Send?)
            && (forall i, j | 0 <= i < j < |actions| :: actions[i].envelope.recipient != actions[j].envelope.recipient)
            && (forall id | id in bindings :: Reaches(actions, federation, local, bindings[id], payload))
  {
    RouteEachExactly(bindings, directory, federation, local, signer, payload, keys);
    KeysCounted(keys, bindings.Keys);
    var actions := RouteEach(bindings, directory, signer, payload, keys).value;
    forall id | id in bindings
      ensures Reaches(actions, federation, local, bindings[id], payload)
    {
      var i :| 0 <= i < |keys| && keys[i] == id;
      assert Carries(actions[i], federation, local, bindings[id], payload);
    }
    forall i, j | 0 <= i < j < |actions|
      ensures actions[i].envelope.recipient != actions[j].envelope.recipient
    {
      LessTrichotomy(keys[i], keys[j]);
      assert Less(keys[i], keys[j]);
    }
  }

  /**
   * In every state of every run of the authority and its clients, a client's route to everyone over its own directory
   * reaches each remote member of its snapshot exactly once, and never itself.
   */
  lemma EveryoneInAnyRun(suite: Suite, federation: FederationId, authority: EndpointIdentity,
                         worlds: seq<DistributionRuns.World>, events: seq<DistributionRuns.Event>, n: nat, k: nat,
                         directory: Directory, signer: Signer, payload: seq<byte>, keys: seq<Bytes32>)
    requires DistributionRuns.IsRun(suite, federation, authority, worlds, events) && n < |worlds|
    requires k in worlds[n].clients && worlds[n].clients[k].policy.authority == authority
    requires Pinned(directory, worlds[n].clients[k].policy.federation, worlds[n].clients[k].policy.localEndpoint)
    requires InKeyOrder(keys, worlds[n].clients[k].bindings.Keys)
    requires RouteEach(worlds[n].clients[k].bindings, directory, signer, payload, keys).Ok?
    ensures var client := worlds[n].clients[k];
            var actions := RouteEach(client.bindings, directory, signer, payload, keys).value;
            && |actions| == |client.bindings|
            && (forall i | 0 <= i < |actions| :: actions[i].Send? && actions[i].envelope.recipient != client.policy.localEndpoint)
            && (forall i, j | 0 <= i < j < |actions| :: actions[i].envelope.recipient != actions[j].envelope.recipient)
            && (forall id | id in client.bindings ::
                  Reaches(actions, client.policy.federation, client.policy.localEndpoint, client.bindings[id], payload))
  {
    var client := worlds[n].clients[k];
    var local := client.policy.localEndpoint;
    DistributionRuns.BindingsAreSeparate(suite, federation, authority, worlds, events, n, k);
    EveryoneOnce(client.bindings, directory, client.policy.federation, local, signer, payload, keys);
    RouteEachExactly(client.bindings, directory, client.policy.federation, local, signer, payload, keys);
  }
}
