/** What every session transaction keeps: one replacement chain and one live access session per family. */
module SessionChains {
  import opened Results
  import opened AuthorityTables

  type Credentials = map<Uuid, Credential>
  type Sessions = map<Uuid, Session>

  /** `chain` lists the credentials of family `f` from the first issued to the only unconsumed one. */
  ghost predicate IsChain(credentials: Credentials, f: Uuid, chain: seq<Uuid>) {
    && chain != []
    && (forall c :: c in chain <==> c in credentials && credentials[c].family == f)
    && (forall i, j | 0 <= i < j < |chain| :: chain[i] != chain[j])
    && (forall i | 0 <= i < |chain| - 1 ::
          credentials[chain[i]].consumedAt.Some? && credentials[chain[i]].replacedBy == Some(chain[i + 1]))
    && credentials[chain[|chain| - 1]].consumedAt.None? && credentials[chain[|chain| - 1]].replacedBy.None?
  }

  ghost predicate Chained(credentials: Credentials, f: Uuid) {
    exists chain :: IsChain(credentials, f, chain)
  }

  /** The unrevoked access sessions of a family. */
  function LiveSessions(sessions: Sessions, f: Uuid): set<Uuid> {
    set s | s in sessions && sessions[s].family == f && sessions[s].revokedAt.None?
  }

  /** Exactly one unrevoked access session while the family is live, none once it is revoked. */
  ghost predicate OneLiveSession(family: Family, sessions: Sessions, f: Uuid) {
    |LiveSessions(sessions, f)| == if family.revokedAt.Some? then 0 else 1
  }

  predicate OwnedAlike(families: map<Uuid, Family>, family: Uuid, tenant: Uuid, account: Uuid) {
    family in families && families[family].tenant == tenant && families[family].account == account
  }

  /** Rows point at a family with the same owner, and that owner exists. */
  ghost predicate OwnersMatch(t: Tables) {
    && (forall c | c in t.credentials ::
          OwnedAlike(t.families, t.credentials[c].family, t.credentials[c].tenant, t.credentials[c].account))
    && (forall s | s in t.sessions ::
          OwnedAlike(t.families, t.sessions[s].family, t.sessions[s].tenant, t.sessions[s].account))
    && (forall f | f in t.families :: t.Owns(t.families[f].tenant, t.families[f].account))
  }

  ghost predicate DigestsUnique(credentials: Credentials) {
    forall c, d | c in credentials && d in credentials && credentials[c].digest == credentials[d].digest :: c == d
  }

  ghost predicate AllChained(t: Tables) {
    forall f | f in t.families :: Chained(t.credentials, f)
  }

  ghost predicate AllOneLive(t: Tables) {
    forall f | f in t.families :: OneLiveSession(t.families[f], t.sessions, f)
  }

  ghost predicate SessionsInv(t: Tables) {
    OwnersMatch(t) && DigestsUnique(t.credentials) && AllChained(t) && AllOneLive(t)
  }

  // ---- One family ----

  /** A chain does not notice changes to the credentials of other families. */
  lemma ChainFrame(before: Credentials, after: Credentials, f: Uuid)
    requires Chained(before, f)
    requires forall c :: (c in before && before[c].family == f) || (c in after && after[c].family == f) ==>
               c in before && c in after && before[c] == after[c]
    ensures Chained(after, f)
  {
    var chain :| IsChain(before, f, chain);
    assert IsChain(after, f, chain);
  }

  /** Consuming the unconsumed credential of a family and inserting its successor appends to the chain. */
  lemma ChainGrows(credentials: Credentials, id: Uuid, next: Uuid, row: Credential, now: Instant)
    requires id in credentials && credentials[id].consumedAt.None? && next !in credentials
    requires row.family == credentials[id].family && row.consumedAt.None? && row.replacedBy.None?
    requires Chained(credentials, row.family)
    ensures Chained(credentials[id := credentials[id].(consumedAt := Some(now), replacedBy := Some(next))][next := row],
                    row.family)
  {
    var chain :| IsChain(credentials, row.family, chain);
    var i :| 0 <= i < |chain| && chain[i] == id;
    assert i == |chain| - 1;
    var after := credentials[id := credentials[id].(consumedAt := Some(now), replacedBy := Some(next))][next := row];
    assert IsChain(after, row.family, chain + [next]);
  }

  /** Revoking the sessions of a family ends exactly its live ones and leaves who owns what. */
  lemma RevokedSessions(sessions: Sessions, family: Uuid, now: Instant)
    ensures var r := RevokeSessions(sessions, family, now);
            && r.Keys == sessions.Keys
            && (forall s | s in sessions :: r[s].(revokedAt := sessions[s].revokedAt) == sessions[s])
            && (forall f :: LiveSessions(r, f) == if f == family then {} else LiveSessions(sessions, f))
  {
    var r := RevokeSessions(sessions, family, now);
    forall f
      ensures LiveSessions(r, f) == if f == family then {} else LiveSessions(sessions, f)
    {
    }
  }

  /** Inserting a fresh unrevoked session adds it to its own family only. */
  lemma InsertedSession(sessions: Sessions, id: Uuid, row: Session)
    requires id !in sessions && row.revokedAt.None?
    ensures forall f :: LiveSessions(sessions[id := row], f)
              == LiveSessions(sessions, f) + if f == row.family then {id} else {}
  {
    forall f
      ensures LiveSessions(sessions[id := row], f) == LiveSessions(sessions, f) + if f == row.family then {id} else {}
    {
    }
  }

  lemma ReplacedSession(sessions: Sessions, id: Uuid, row: Session, now: Instant)
    requires id !in sessions && row.revokedAt.None?
    ensures var r := RevokeSessions(sessions, row.family, now)[id := row];
            forall f :: LiveSessions(r, f) == if f == row.family then {id} else LiveSessions(sessions, f)
  {
    RevokedSessions(sessions, row.family, now);
    InsertedSession(RevokeSessions(sessions, row.family, now), id, row);
  }

  // ---- Creating a session ----

  lemma CreateKeepsOwners(t: Tables, n: NewSession, now: Instant)
    requires OwnersMatch(t)
    ensures OwnersMatch(CreateSession(t, n, now).tables)
  {
  }

  lemma CreateKeepsChains(t: Tables, n: NewSession, now: Instant)
    requires OwnersMatch(t) && AllChained(t)
    ensures AllChained(CreateSession(t, n, now).tables)
  {
    var t' := CreateSession(t, n, now).tables;
    if CreateSession(t, n, now).answer.Ok? {
      forall f | f in t'.families
        ensures Chained(t'.credentials, f)
      {
        if f == n.family {
          assert IsChain(t'.credentials, f, [n.credential]);
        } else {
          ChainFrame(t.credentials, t'.credentials, f);
        }
      }
    }
  }

  lemma CreateKeepsLive(t: Tables, n: NewSession, now: Instant)
    requires OwnersMatch(t) && AllOneLive(t)
    ensures AllOneLive(CreateSession(t, n, now).tables)
  {
    if CreateSession(t, n, now).answer.Ok? {
      InsertedSession(t.sessions, n.session, Session(n.tenant, n.account, n.family, n.accessDigest, n.accessExpires, None));
      assert LiveSessions(t.sessions, n.family) == {};
    }
  }

  lemma CreateKeepsSessions(t: Tables, n: NewSession, now: Instant)
    requires SessionsInv(t)
    ensures SessionsInv(CreateSession(t, n, now).tables)
  {
    CreateKeepsOwners(t, n, now);
    CreateKeepsChains(t, n, now);
    CreateKeepsLive(t, n, now);
    CreateKeepsDigests(t, n, now);
  }

  lemma CreateKeepsDigests(t: Tables, n: NewSession, now: Instant)
    requires DigestsUnique(t.credentials)
    ensures DigestsUnique(CreateSession(t, n, now).tables.credentials)
  {
  }

  // ---- Revoking a family ----

  lemma RevokeKeepsSessions(t: Tables, tenant: Uuid, account: Uuid, family: Uuid, now: Instant)
    requires SessionsInv(t)
    ensures SessionsInv(RevokeFamily(t, tenant, account, family, now).tables)
  {
    RevokedSessions(t.sessions, family, now);
    RevokeKeepsOwners(t, tenant, account, family, now);
    RevokeKeepsLive(t, tenant, account, family, now);
  }

  lemma RevokeKeepsOwners(t: Tables, tenant: Uuid, account: Uuid, family: Uuid, now: Instant)
    requires OwnersMatch(t)
    ensures OwnersMatch(RevokeFamily(t, tenant, account, family, now).tables)
  {
    RevokedSessions(t.sessions, family, now);
  }

  lemma RevokeKeepsLive(t: Tables, tenant: Uuid, account: Uuid, family: Uuid, now: Instant)
    requires AllOneLive(t)
    ensures AllOneLive(RevokeFamily(t, tenant, account, family, now).tables)
  {
    RevokedSessions(t.sessions, family, now);
  }

  // ---- Rotating a credential ----

  /** The credential's family is live. */
  ghost predicate Rotatable(t: Tables, id: Uuid) {
    && id in t.credentials && t.credentials[id].family in t.families
    && t.families[t.credentials[id].family].revokedAt.None?
  }

  lemma RotateLockedKeepsOwners(t: Tables, id: Uuid, n: Successor, now: Instant)
    requires OwnersMatch(t) && Rotatable(t, id)
    ensures OwnersMatch(RotateLocked(t, id, n, now).tables)
  {
    RevokedSessions(t.sessions, t.credentials[id].family, now);
  }

  lemma RotateLockedKeepsChains(t: Tables, id: Uuid, n: Successor, now: Instant)
    requires AllChained(t) && Rotatable(t, id)
    ensures AllChained(RotateLocked(t, id, n, now).tables)
  {
    var c := t.credentials[id];
    if c.consumedAt.None? && RotateLocked(t, id, n, now).answer.Ok? {
      var row := Credential(c.tenant, c.account, c.family, n.digest, n.expires, None, None);
      var after := t.credentials[id := c.(consumedAt := Some(now), replacedBy := Some(n.credential))][n.credential := row];
      forall f | f in t.families
        ensures Chained(after, f)
      {
        if f == c.family {
          ChainGrows(t.credentials, id, n.credential, row, now);
        } else {
          ChainFrame(t.credentials, after, f);
        }
      }
    }
  }

  lemma RotateLockedKeepsLive(t: Tables, id: Uuid, n: Successor, now: Instant)
    requires AllOneLive(t) && Rotatable(t, id)
    ensures AllOneLive(RotateLocked(t, id, n, now).tables)
  {
    var c := t.credentials[id];
    if c.consumedAt.None? && RotateLocked(t, id, n, now).answer.Ok? {
      ReplacedSession(t.sessions, n.session,
                      Session(c.tenant, c.account, c.family, n.accessDigest, n.accessExpires, None), now);
    }
  }

  lemma RotateLockedKeepsDigests(t: Tables, id: Uuid, n: Successor, now: Instant)
    requires DigestsUnique(t.credentials) && Rotatable(t, id)
    ensures DigestsUnique(RotateLocked(t, id, n, now).tables.credentials)
  {
  }

  lemma RotateLockedKeepsSessions(t: Tables, id: Uuid, n: Successor, now: Instant, t': Tables)
    requires SessionsInv(t) && Rotatable(t, id) && t' == RotateLocked(t, id, n, now).tables
    ensures SessionsInv(t')
  {
    RotateLockedKeepsOwners(t, id, n, now);
    RotateLockedKeepsChains(t, id, n, now);
    RotateLockedKeepsLive(t, id, n, now);
    RotateLockedKeepsDigests(t, id, n, now);
  }

  lemma RevokedKeepsSessions(t: Tables, tenant: Uuid, account: Uuid, family: Uuid, now: Instant, t': Tables)
    requires SessionsInv(t) && t' == RevokeFamily(t, tenant, account, family, now).tables
    ensures SessionsInv(t')
  {
    RevokeKeepsSessions(t, tenant, account, family, now);
  }

  /** What a rotation request does to the tables: nothing, a revocation, or the rotation of one credential. */
  lemma RotateCases(t: Tables, presented: Digest, n: Successor, now: Instant) returns (id: Uuid)
    ensures var t' := Rotate(t, presented, n, now).tables;
            || t' == t
            || (id in t.credentials
                && var c := t.credentials[id]; t' == RevokeFamily(t, c.tenant, c.account, c.family, now).tables)
            || (Rotatable(t, id) && t' == RotateLocked(t, id, n, now).tables)
  {
    id := CredentialBy(t, presented).GetOr(0);
  }

  lemma RotateKeepsSessions(t: Tables, presented: Digest, n: Successor, now: Instant)
    requires SessionsInv(t)
    ensures SessionsInv(Rotate(t, presented, n, now).tables)
  {
    var id := RotateCases(t, presented, n, now);
    var t' := Rotate(t, presented, n, now).tables;
    if Rotatable(t, id) && t' == RotateLocked(t, id, n, now).tables {
      RotateLockedKeepsSessions(t, id, n, now, t');
    } else if t' != t {
      var c := t.credentials[id];
      RevokedKeepsSessions(t, c.tenant, c.account, c.family, now, t');
    }
  }

  /** A detected reuse revokes the family of the presented credential. */
  lemma DetectionRevokes(t: Tables, presented: Digest, n: Successor, now: Instant)
    requires OwnersMatch(t) && Rotate(t, presented, n, now).answer == Ok(ReuseDetected)
    ensures var t', family := Rotate(t, presented, n, now).tables, t.credentials[CredentialBy(t, presented).value].family;
            family in t'.families && t'.families[family].revokedAt.Some?
  {
  }
}
