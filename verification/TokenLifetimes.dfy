/** How long what the authority issues is good for: sessions, refresh credentials, grants and login transactions over every run. */
module TokenLifetimes {
  import opened Results
  import opened AuthorityTables
  import opened SessionChains
  import opened AuthorityRuns
  import opened AuthorityTheorems
  import opened AuthorityStores

  // ---- What a request issues ----

  /** A refresh credential and an access session, as the request that issues them asks for them. */
  datatype Tokens = Tokens(
    tenant: Uuid, account: Uuid, family: Uuid,
    credential: Uuid, refreshDigest: Digest, refreshExpires: Instant,
    session: Uuid, accessDigest: Digest, accessExpires: Instant)

  /** The tokens a request issues, if it does: a new family's first ones, or the successors of a rotation. */
  ghost function IssuedBy(t: Tables, r: Request): Option<Tokens> {
    match r
    case OnSessions(Create(n, now)) =>
      if CreateSession(t, n, now).answer.Ok? then
        Some(Tokens(n.tenant, n.account, n.family, n.credential, n.refreshDigest, n.refreshExpires,
                    n.session, n.accessDigest, n.accessExpires))
      else None
    case OnSessions(RotateCredential(presented, n, now)) =>
      (match Rotate(t, presented, n, now).answer
       case Ok(Rotated(record)) =>
         Some(Tokens(record.tenant, record.account, record.family, n.credential, n.digest, n.expires,
                     n.session, n.accessDigest, n.accessExpires))
       case _ => None)
    case _ => None
  }

  /** The request issues tokens in this family. */
  ghost predicate IssuesIn(t: Tables, r: Request, family: Uuid) {
    IssuedBy(t, r).Some? && IssuedBy(t, r).value.family == family
  }

  /** Both rows are stored, whatever has become of them since. */
  ghost predicate Stored(t: Tables, k: Tokens) {
    && k.credential in t.credentials && k.session in t.sessions
    && t.credentials[k.credential].(consumedAt := None, replacedBy := None)
       == Credential(k.tenant, k.account, k.family, k.refreshDigest, k.refreshExpires, None, None)
    && t.sessions[k.session].(revokedAt := None)
       == Session(k.tenant, k.account, k.family, k.accessDigest, k.accessExpires, None)
  }

  predicate Unspent(t: Tables, credential: Uuid) {
    credential in t.credentials && t.credentials[credential].consumedAt.None?
  }

  predicate Unrevoked(t: Tables, session: Uuid) {
    session in t.sessions && t.sessions[session].revokedAt.None?
  }

  /** Issued tokens are stored, unspent and unrevoked. */
  lemma IssuedIsStored(t: Tables, r: Request, k: Tokens)
    requires IssuedBy(t, r) == Some(k)
    ensures var t' := Perform(t, r); Stored(t', k) && Unspent(t', k.credential) && Unrevoked(t', k.session)
  {
  }

  lemma StoredLasts(t: Tables, t': Tables, k: Tokens)
    requires Persists(t, t') && Stored(t, k)
    ensures Stored(t', k)
  {
  }

  lemma StoredInRun(states: seq<Tables>, requests: seq<Request>, i: nat, j: nat, k: Tokens)
    requires IsRun(states, requests) && i < |requests| && i < j < |states| && IssuedBy(states[i], requests[i]) == Some(k)
    ensures Stored(states[j], k)
  {
    IssuedIsStored(states[i], requests[i], k);
    RunPersists(states, requests, i + 1, j);
    StoredLasts(states[i + 1], states[j], k);
  }

  // ---- Rotation is what spends a credential and ends a session ----

  /** A family has one unspent credential. */
  lemma OneUnspent(t: Tables, c: Uuid, d: Uuid)
    requires SessionsInv(t) && Unspent(t, c) && Unspent(t, d) && t.credentials[c].family == t.credentials[d].family
    ensures c == d
  {
    var f := t.credentials[c].family;
    assert OwnedAlike(t.families, f, t.credentials[c].tenant, t.credentials[c].account);
    assert Chained(t.credentials, f);
    var chain :| IsChain(t.credentials, f, chain);
    assert c in chain && d in chain;
  }

  /** What happened once, step by step: `alive` holds on until the first `hit`. */
  lemma {:induction false} LastsUntilHit(alive: seq<bool>, hit: seq<bool>, i: nat, j: nat)
    requires i <= j < |alive| && |alive| == |hit| + 1 && alive[i]
    requires forall m | i <= m < j :: alive[m + 1] <==> alive[m] && !hit[m]
    ensures alive[j] <==> forall m | i <= m < j :: !hit[m]
    decreases j
  {
    if i < j {
      LastsUntilHit(alive, hit, i, j - 1);
    }
  }

  /** The same while `live` may end it too, and never comes back. */
  lemma {:induction false} LastsWhileLive(alive: seq<bool>, live: seq<bool>, hit: seq<bool>, i: nat, j: nat)
    requires i <= j < |alive| && |alive| == |live| == |hit| + 1 && alive[i] && live[i]
    requires forall m | i <= m < j :: alive[m + 1] <==> alive[m] && live[m + 1] && !hit[m]
    requires forall m | i <= m < j :: live[m + 1] ==> live[m]
    ensures alive[j] <==> live[j] && forall m | i <= m < j :: !hit[m]
    decreases j
  {
    if i < j {
      LastsWhileLive(alive, live, hit, i, j - 1);
    }
  }

  /** A rotation spends the presented credential and touches no other; any other answer touches none. */
  lemma RotationCredentials(t: Tables, presented: Digest, n: Successor, now: Instant)
    ensures var done := Rotate(t, presented, n, now);
            if done.answer.Ok? && done.answer.value.Rotated? then
              && CredentialBy(t, presented).Some? && Unspent(t, CredentialBy(t, presented).value)
              && t.credentials[CredentialBy(t, presented).value].family == done.answer.value.record.family
              && forall c | c in t.credentials ::
                   && c in done.tables.credentials
                   && if c == CredentialBy(t, presented).value then done.tables.credentials[c].consumedAt.Some?
                      else done.tables.credentials[c] == t.credentials[c]
            else done.tables.credentials == t.credentials
  {
    var id := CredentialBy(t, presented);
    if id.Some? && Rotatable(t, id.value) {
      LockedCredentials(t, id.value, n, now);
    }
  }

  lemma LockedCredentials(t: Tables, id: Uuid, n: Successor, now: Instant)
    requires Rotatable(t, id)
    ensures var done := RotateLocked(t, id, n, now);
            if done.answer.Ok? && done.answer.value.Rotated? then
              && Unspent(t, id) && t.credentials[id].family == done.answer.value.record.family
              && forall c | c in t.credentials ::
                   && c in done.tables.credentials
                   && if c == id then done.tables.credentials[c].consumedAt.Some? else done.tables.credentials[c] == t.credentials[c]
            else done.tables.credentials == t.credentials
  {
  }

  lemma RotationSpent(t: Tables, presented: Digest, n: Successor, now: Instant, c: Uuid)
    requires SessionsInv(t) && Unspent(t, c)
    ensures var done := Rotate(t, presented, n, now);
            Unspent(done.tables, c) <==>
              !(done.answer.Ok? && done.answer.value.Rotated? && done.answer.value.record.family == t.credentials[c].family)
  {
    var done := Rotate(t, presented, n, now);
    RotationCredentials(t, presented, n, now);
    if done.answer.Ok? && done.answer.value.Rotated? && done.answer.value.record.family == t.credentials[c].family {
      OneUnspent(t, c, CredentialBy(t, presented).value);
    }
  }

  lemma CreationSpares(t: Tables, n: NewSession, now: Instant, c: Uuid)
    requires SessionsInv(t) && Unspent(t, c)
    ensures Unspent(CreateSession(t, n, now).tables, c)
    ensures CreateSession(t, n, now).answer.Ok? ==> n.family != t.credentials[c].family
  {
    assert OwnedAlike(t.families, t.credentials[c].family, t.credentials[c].tenant, t.credentials[c].account);
  }

  lemma RotationSpendsTail(t: Tables, r: Request, c: Uuid)
    requires SessionsInv(t) && Unspent(t, c) && r.OnSessions? && r.sessions.RotateCredential?
    ensures Unspent(Perform(t, r), c) <==> !IssuesIn(t, r, t.credentials[c].family)
  {
    RotationSpent(t, r.sessions.presented, r.sessions.successor, r.sessions.now, c);
    PerformRotates(t, r);
  }

  lemma NoRotationSpares(t: Tables, r: Request, c: Uuid)
    requires SessionsInv(t) && Unspent(t, c) && r.OnSessions? && !r.sessions.RotateCredential?
    ensures Unspent(Perform(t, r), c) && !IssuesIn(t, r, t.credentials[c].family)
  {
    if r.sessions.Create? {
      CreationSpares(t, r.sessions.session, r.sessions.now, c);
    }
  }

  lemma OthersSpare(t: Tables, r: Request)
    requires !r.OnSessions?
    ensures var t' := Perform(t, r); t'.credentials == t.credentials && t'.sessions == t.sessions && t'.families == t.families
    ensures IssuedBy(t, r).None?
  {
  }

  /** A request spends an unspent credential exactly by issuing new tokens in its family. */
  lemma SpentStep(t: Tables, r: Request, c: Uuid)
    requires SessionsInv(t) && Unspent(t, c)
    ensures Unspent(Perform(t, r), c) <==> !IssuesIn(t, r, t.credentials[c].family)
  {
    if !r.OnSessions? {
      OthersSpare(t, r);
    } else if r.sessions.RotateCredential? {
      RotationSpendsTail(t, r, c);
    } else {
      NoRotationSpares(t, r, c);
    }
  }

  /** A credential stays unspent exactly as long as no tokens are issued in its family. */
  lemma UnspentWhileNoneIssued(states: seq<Tables>, requests: seq<Request>, i: nat, j: nat, c: Uuid, family: Uuid)
    requires IsRun(states, requests) && i <= j < |states| && Unspent(states[i], c) && states[i].credentials[c].family == family
    ensures Unspent(states[j], c) <==> forall m | i <= m < j :: !IssuesIn(states[m], requests[m], family)
  {
    var alive := seq(|states|, m requires 0 <= m < |states| => Unspent(states[m], c));
    var hit := seq(|requests|, m requires 0 <= m < |requests| => IssuesIn(states[m], requests[m], family));
    forall m | i <= m < j
      ensures alive[m + 1] <==> alive[m] && !hit[m]
    {
      UnspentNext(states, requests, i, m, c);
    }
    LastsUntilHit(alive, hit, i, j);
    assert forall m | i <= m < j :: hit[m] == IssuesIn(states[m], requests[m], family);
  }

  lemma UnspentNext(states: seq<Tables>, requests: seq<Request>, i: nat, m: nat, c: Uuid)
    requires IsRun(states, requests) && i <= m < |requests| && c in states[i].credentials
    ensures Unspent(states[m + 1], c) <==> Unspent(states[m], c) && !IssuesIn(states[m], requests[m], states[i].credentials[c].family)
  {
    RunPersists(states, requests, i, m);
    RunPersists(states, requests, m, m + 1);
    RunInv(states, requests, m);
    if Unspent(states[m], c) {
      SpentStep(states[m], requests[m], c);
    }
  }

  // ---- Access sessions end with their family or at the next issue in it ----

  lemma UnrevokedIsLive(t: Tables, s: Uuid)
    requires SessionsInv(t) && Unrevoked(t, s)
    ensures Live(t, t.sessions[s].family)
  {
    var f := t.sessions[s].family;
    assert OwnedAlike(t.families, f, t.sessions[s].tenant, t.sessions[s].account);
    assert OneLiveSession(t.families[f], t.sessions, f);
    assert s in LiveSessions(t.sessions, f);
  }

  lemma RevocationEnds(t: Tables, tenant: Uuid, account: Uuid, family: Uuid, now: Instant, s: Uuid)
    requires Unrevoked(t, s) && Live(t, t.sessions[s].family)
    ensures var t' := RevokeFamily(t, tenant, account, family, now).tables; Unrevoked(t', s) <==> Live(t', t.sessions[s].family)
  {
  }

  lemma LockedEnds(t: Tables, id: Uuid, n: Successor, now: Instant, s: Uuid)
    requires Rotatable(t, id) && Unrevoked(t, s) && Live(t, t.sessions[s].family)
    ensures var done := RotateLocked(t, id, n, now);
            && Live(done.tables, t.sessions[s].family)
            && (Unrevoked(done.tables, s) <==>
                  !(done.answer.Ok? && done.answer.value.Rotated? && done.answer.value.record.family == t.sessions[s].family))
  {
  }

  lemma RotationEnds(t: Tables, presented: Digest, n: Successor, now: Instant, s: Uuid)
    requires Unrevoked(t, s) && Live(t, t.sessions[s].family)
    ensures var done := Rotate(t, presented, n, now);
            Unrevoked(done.tables, s) <==>
              && Live(done.tables, t.sessions[s].family)
              && !(done.answer.Ok? && done.answer.value.Rotated? && done.answer.value.record.family == t.sessions[s].family)
  {
    var done, id := Rotate(t, presented, n, now), CredentialBy(t, presented);
    if id.Some? && done.answer == Ok(ReuseDetected) {
      var c := t.credentials[id.value];
      RevocationEnds(t, c.tenant, c.account, c.family, now, s);
    } else if id.Some? && Rotatable(t, id.value) {
      LockedEnds(t, id.value, n, now, s);
    }
  }

  lemma CreationEndsNothing(t: Tables, n: NewSession, now: Instant, s: Uuid)
    requires Unrevoked(t, s) && Live(t, t.sessions[s].family)
    ensures var done := CreateSession(t, n, now);
            && Unrevoked(done.tables, s) && Live(done.tables, t.sessions[s].family)
            && (done.answer.Ok? ==> n.family != t.sessions[s].family)
  {
  }

  lemma RotationEndsSession(t: Tables, r: Request, s: Uuid)
    requires r.OnSessions? && r.sessions.RotateCredential? && Unrevoked(t, s) && Live(t, t.sessions[s].family)
    ensures Unrevoked(Perform(t, r), s) <==>
              Live(Perform(t, r), t.sessions[s].family) && !IssuesIn(t, r, t.sessions[s].family)
  {
    RotationEnds(t, r.sessions.presented, r.sessions.successor, r.sessions.now, s);
    PerformRotates(t, r);
  }

  /** A request ends an unrevoked session exactly by issuing tokens in its family or revoking it. */
  lemma SessionStep(t: Tables, r: Request, s: Uuid)
    requires SessionsInv(t) && Unrevoked(t, s)
    ensures Unrevoked(Perform(t, r), s) <==>
              Live(Perform(t, r), t.sessions[s].family) && !IssuesIn(t, r, t.sessions[s].family)
  {
    UnrevokedIsLive(t, s);
    if !r.OnSessions? {
      OthersSpare(t, r);
    } else if r.sessions.RotateCredential? {
      RotationEndsSession(t, r, s);
    } else if r.sessions.Create? {
      CreationEndsNothing(t, r.sessions.session, r.sessions.now, s);
    } else {
      RevocationEnds(t, r.sessions.tenant, r.sessions.account, r.sessions.family, r.sessions.now, s);
    }
  }

  lemma UnrevokedNext(states: seq<Tables>, requests: seq<Request>, i: nat, m: nat, s: Uuid, family: Uuid)
    requires IsRun(states, requests) && i <= m < |requests| && s in states[i].sessions && states[i].sessions[s].family == family
    ensures Unrevoked(states[m + 1], s) <==>
              Unrevoked(states[m], s) && Live(states[m + 1], family) && !IssuesIn(states[m], requests[m], family)
    ensures family in states[i].families && Live(states[m + 1], family) ==> Live(states[m], family)
  {
    RunPersists(states, requests, i, m);
    RunPersists(states, requests, m, m + 1);
    RunInv(states, requests, m);
    if Unrevoked(states[m], s) {
      SessionStep(states[m], requests[m], s);
    }
  }

  lemma LiveInRun(states: seq<Tables>, requests: seq<Request>, i: nat, s: Uuid)
    requires IsRun(states, requests) && i < |states| && Unrevoked(states[i], s)
    ensures Live(states[i], states[i].sessions[s].family)
  {
    RunInv(states, requests, i);
    UnrevokedIsLive(states[i], s);
  }

  /** A session stays unrevoked exactly as long as its family is live and no tokens are issued in it. */
  lemma UnrevokedWhileNoneIssued(states: seq<Tables>, requests: seq<Request>, i: nat, j: nat, s: Uuid, family: Uuid)
    requires IsRun(states, requests) && i <= j < |states| && Unrevoked(states[i], s) && states[i].sessions[s].family == family
    ensures Unrevoked(states[j], s) <==> Live(states[j], family) && forall m | i <= m < j :: !IssuesIn(states[m], requests[m], family)
  {
    LiveInRun(states, requests, i, s);
    var alive := seq(|states|, m requires 0 <= m < |states| => Unrevoked(states[m], s));
    var live := seq(|states|, m requires 0 <= m < |states| => Live(states[m], family));
    var hit := seq(|requests|, m requires 0 <= m < |requests| => IssuesIn(states[m], requests[m], family));
    forall m: nat | i <= m < j
      ensures (alive[m + 1] <==> alive[m] && live[m + 1] && !hit[m]) && (live[m + 1] ==> live[m])
    {
      UnrevokedNext(states, requests, i, m, s, family);
    }
    LastsWhileLive(alive, live, hit, i, j);
    assert forall m | i <= m < j :: hit[m] == IssuesIn(states[m], requests[m], family);
  }

  // ---- Session digests are unique ----

  ghost predicate SessionDigestsUnique(sessions: Sessions) {
    forall s, r | s in sessions && r in sessions && sessions[s].digest == sessions[r].digest :: s == r
  }

  lemma RevokedKeepDigests(sessions: Sessions, family: Uuid, now: Instant)
    requires SessionDigestsUnique(sessions)
    ensures SessionDigestsUnique(RevokeSessions(sessions, family, now))
  {
  }

  lemma LockedKeepsDigests(t: Tables, id: Uuid, n: Successor, now: Instant)
    requires SessionDigestsUnique(t.sessions) && Rotatable(t, id)
    ensures SessionDigestsUnique(RotateLocked(t, id, n, now).tables.sessions)
  {
    RevokedKeepDigests(t.sessions, t.credentials[id].family, now);
  }

  lemma RotationKeepsDigests(t: Tables, presented: Digest, n: Successor, now: Instant)
    requires SessionDigestsUnique(t.sessions)
    ensures SessionDigestsUnique(Rotate(t, presented, n, now).tables.sessions)
  {
    var id := CredentialBy(t, presented);
    if id.Some? {
      RevokedKeepDigests(t.sessions, t.credentials[id.value].family, now);
      if Rotatable(t, id.value) {
        LockedKeepsDigests(t, id.value, n, now);
      }
    }
  }

  lemma CreationKeepsDigests(t: Tables, n: NewSession, now: Instant)
    requires SessionDigestsUnique(t.sessions)
    ensures SessionDigestsUnique(CreateSession(t, n, now).tables.sessions)
  {
  }

  lemma StepKeepsDigests(t: Tables, r: Request)
    requires SessionDigestsUnique(t.sessions)
    ensures SessionDigestsUnique(Perform(t, r).sessions)
  {
    if r.OnSessions? && r.sessions.RotateCredential? {
      RotationKeepsDigests(t, r.sessions.presented, r.sessions.successor, r.sessions.now);
    } else if r.OnSessions? && r.sessions.Revoke? {
      RevokedKeepDigests(t.sessions, r.sessions.family, r.sessions.now);
    } else if r.OnSessions? {
      CreationKeepsDigests(t, r.sessions.session, r.sessions.now);
    } else {
      OthersSpare(t, r);
    }
  }

  lemma {:induction false} RunSessionDigests(states: seq<Tables>, requests: seq<Request>, i: nat)
    requires IsRun(states, requests) && i < |states|
    ensures SessionDigestsUnique(states[i].sessions)
  {
    if i > 0 {
      RunSessionDigests(states, requests, i - 1);
      StepKeepsDigests(states[i - 1], requests[i - 1]);
    }
  }

  // ---- Lifetimes ----

  /** No tokens were issued in the family between. */
  ghost predicate NoneIssued(states: seq<Tables>, requests: seq<Request>, i: nat, j: nat, family: Uuid)
    requires j <= |requests| && j <= |states|
  {
    forall m | i < m < j :: !IssuesIn(states[m], requests[m], family)
  }

  /**
   An access token works in any later state exactly until the instant asked for, while its account is active, its family
   is not revoked and nothing has been issued in the family since.
   */
  lemma AccessLifetime(states: seq<Tables>, requests: seq<Request>, i: nat, j: nat, k: Tokens, now: Instant)
    requires IsRun(states, requests) && i < |requests| && i < j < |states| && IssuedBy(states[i], requests[i]) == Some(k)
    ensures (exists s :: OpenSession(states[j], s, k.accessDigest, now)) <==>
              && now < k.accessExpires && states[j].OwnsIn(k.tenant, k.account, Active) && Live(states[j], k.family)
              && NoneIssued(states, requests, i, j, k.family)
  {
    IssuedIsStored(states[i], requests[i], k);
    StoredInRun(states, requests, i, j, k);
    UnrevokedWhileNoneIssued(states, requests, i + 1, j, k.session, k.family);
    RunSessionDigests(states, requests, j);
    OpenIsStored(states[j], k, now);
  }

  lemma OpenIsStored(t: Tables, k: Tokens, now: Instant)
    requires Stored(t, k) && SessionDigestsUnique(t.sessions)
    ensures (exists s :: OpenSession(t, s, k.accessDigest, now)) <==>
              now < k.accessExpires && Unrevoked(t, k.session) && Live(t, k.family) && t.OwnsIn(k.tenant, k.account, Active)
  {
    if exists s :: OpenSession(t, s, k.accessDigest, now) {
      var s :| OpenSession(t, s, k.accessDigest, now);
      assert s == k.session;
    } else {
      assert !OpenSession(t, k.session, k.accessDigest, now);
    }
  }

  /** What a presented credential is answered, by its row: rotated, detected or denied. */
  lemma RotationExactly(t: Tables, c: Uuid, n: Successor, now: Instant)
    requires SessionsInv(t) && c in t.credentials && n.expires > now && n.accessExpires > now
    requires CredentialFree(t, n.credential, n.digest) && SessionFree(t, n.session, n.accessDigest)
    ensures var answer, row := Rotate(t, t.credentials[c].digest, n, now).answer, t.credentials[c];
            && answer.Ok?
            && (answer.value == ReuseDetected <==> !Unspent(t, c) && Live(t, row.family))
            && (answer.value.Rotated? <==>
                  Unspent(t, c) && Live(t, row.family) && now < row.expiresAt && t.OwnsIn(row.tenant, row.account, Active))
  {
    assert CredentialBy(t, t.credentials[c].digest) == Some(c);
    assert OwnedAlike(t.families, t.credentials[c].family, t.credentials[c].tenant, t.credentials[c].account);
    FoundExactly(t, t.credentials[c].digest, c, n, now);
  }

  lemma FoundExactly(t: Tables, digest: Digest, c: Uuid, n: Successor, now: Instant)
    requires c in t.credentials && CredentialBy(t, digest) == Some(c) && n.expires > now && n.accessExpires > now
    requires t.credentials[c].family in t.families && t.Owns(t.credentials[c].tenant, t.credentials[c].account)
    requires CredentialFree(t, n.credential, n.digest) && SessionFree(t, n.session, n.accessDigest)
    ensures var answer, row := Rotate(t, digest, n, now).answer, t.credentials[c];
            && answer.Ok?
            && (answer.value == ReuseDetected <==> !Unspent(t, c) && Live(t, row.family))
            && (answer.value.Rotated? <==>
                  Unspent(t, c) && Live(t, row.family) && now < row.expiresAt && t.OwnsIn(row.tenant, row.account, Active))
  {
  }

  /**
   A refresh token rotates in any later state exactly until the instant asked for, while its account is active, its
   family is not revoked and nothing has been issued in the family since; presented after that, it is detected.
   */
  lemma RefreshLifetime(states: seq<Tables>, requests: seq<Request>, i: nat, j: nat, k: Tokens, n: Successor, now: Instant)
    requires IsRun(states, requests) && i < |requests| && i < j < |states| && IssuedBy(states[i], requests[i]) == Some(k)
    requires n.expires > now && n.accessExpires > now
    requires CredentialFree(states[j], n.credential, n.digest) && SessionFree(states[j], n.session, n.accessDigest)
    ensures var answer := Rotate(states[j], k.refreshDigest, n, now).answer;
            && answer.Ok?
            && (answer.value.Rotated? <==>
                  && now < k.refreshExpires && states[j].OwnsIn(k.tenant, k.account, Active) && Live(states[j], k.family)
                  && NoneIssued(states, requests, i, j, k.family))
            && (answer.value == ReuseDetected <==> Live(states[j], k.family) && !NoneIssued(states, requests, i, j, k.family))
  {
    IssuedIsStored(states[i], requests[i], k);
    StoredInRun(states, requests, i, j, k);
    UnspentWhileNoneIssued(states, requests, i + 1, j, k.credential, k.family);
    RunInv(states, requests, j);
    RotationExactly(states[j], k.credential, n, now);
  }

  /** A family's first tokens are issued exactly to an active account, with both ends ahead and everything unused. */
  lemma CreationExactly(t: Tables, n: NewSession, now: Instant)
    ensures IssuedBy(t, OnSessions(Create(n, now))).Some? <==>
              && now < n.refreshExpires && now < n.accessExpires && t.OwnsIn(n.tenant, n.account, Active)
              && n.family !in t.families && n.credential !in t.credentials && n.session !in t.sessions
              && (forall c | c in t.credentials :: t.credentials[c].digest != n.refreshDigest)
              && (forall s | s in t.sessions :: t.sessions[s].digest != n.accessDigest)
    ensures CreateSession(t, n, now).answer == Err(InvalidExpiry) <==> n.refreshExpires <= now || n.accessExpires <= now
  {
  }

  /** A revocation by the owner of a family ends the family for good; by anyone else it changes nothing. */
  lemma RevocationIsFinal(states: seq<Tables>, requests: seq<Request>, i: nat, j: nat)
    requires IsRun(states, requests) && i < |requests| && i < j < |states|
    requires requests[i].OnSessions? && requests[i].sessions.Revoke?
    ensures var q := requests[i].sessions;
            if OwnedAlike(states[i].families, q.family, q.tenant, q.account) then Dead(states[j], q.family)
            else states[i + 1] == states[i]
  {
    var q := requests[i].sessions;
    if OwnedAlike(states[i].families, q.family, q.tenant, q.account) {
      assert Revoked(states[i + 1], q.family);
      RunPersists(states, requests, i + 1, j);
      RunInv(states, requests, j);
      RevokedIsDead(states[j], q.family);
    }
  }

  // ---- Grants ----

  predicate Unredeemed(t: Tables, g: Uuid) {
    g in t.grants && t.grants[g].consumedAt.None?
  }

  ghost predicate RedeemsGrant(t: Tables, r: Request, g: Uuid) {
    && r.OnGrants? && r.grants.Redeem?
    && ConsumeGrant(t, r.grants.tenant, r.grants.account, r.grants.family, r.grants.target, r.grants.digest, r.grants.now).answer
       == Ok(Some(g))
  }

  lemma RedemptionStep(t: Tables, q: GrantRequest, g: Uuid)
    requires Unredeemed(t, g)
    ensures Unredeemed(PerformGrants(t, q), g) <==> !RedeemsGrant(t, OnGrants(q), g)
  {
  }

  lemma UnredeemedStep(t: Tables, r: Request, g: Uuid)
    requires Unredeemed(t, g)
    ensures Unredeemed(Perform(t, r), g) <==> !RedeemsGrant(t, r, g)
  {
    if r.OnGrants? {
      RedemptionStep(t, r.grants, g);
    } else {
      assert Perform(t, r).grants == t.grants;
    }
  }

  lemma UnredeemedNext(states: seq<Tables>, requests: seq<Request>, m: nat, g: Uuid)
    requires IsRun(states, requests) && m < |requests| && g in states[m].grants
    ensures Unredeemed(states[m + 1], g) <==> Unredeemed(states[m], g) && !RedeemsGrant(states[m], requests[m], g)
  {
    RunPersists(states, requests, m, m + 1);
    if Unredeemed(states[m], g) {
      UnredeemedStep(states[m], requests[m], g);
    }
  }

  /** A grant stays unredeemed exactly as long as nobody redeems it. */
  lemma UnredeemedUntilRedeemed(states: seq<Tables>, requests: seq<Request>, i: nat, j: nat, g: Uuid)
    requires IsRun(states, requests) && i <= j < |states| && Unredeemed(states[i], g)
    ensures Unredeemed(states[j], g) <==> forall m | i <= m < j :: !RedeemsGrant(states[m], requests[m], g)
  {
    var alive := seq(|states|, m requires 0 <= m < |states| => Unredeemed(states[m], g));
    var hit := seq(|requests|, m requires 0 <= m < |requests| => RedeemsGrant(states[m], requests[m], g));
    forall m | i <= m < j
      ensures alive[m + 1] <==> alive[m] && !hit[m]
    {
      RunPersists(states, requests, i, m);
      UnredeemedNext(states, requests, m, g);
    }
    LastsUntilHit(alive, hit, i, j);
    assert forall m | i <= m < j :: hit[m] == RedeemsGrant(states[m], requests[m], g);
  }

  ghost predicate NoneRedeemed(states: seq<Tables>, requests: seq<Request>, i: nat, j: nat, g: Uuid)
    requires j <= |requests| && j <= |states|
  {
    forall m | i < m < j :: !RedeemsGrant(states[m], requests[m], g)
  }

  /** The row a grant was issued with, whatever has become of it. */
  ghost predicate GrantStored(t: Tables, n: NewGrant) {
    && n.id in t.grants
    && t.grants[n.id].(consumedAt := None) == Grant(n.tenant, n.account, n.family, n.target, n.digest, n.expires, None)
  }

  lemma RedeemedExactly(t: Tables, n: NewGrant, tenant: Uuid, account: Uuid, family: Uuid, target: Digest, now: Instant)
    requires GrantDigestsUnique(t.grants) && GrantStored(t, n)
    ensures ConsumeGrant(t, tenant, account, family, target, n.digest, now).answer ==
            Ok(if Unredeemed(t, n.id) && now < n.expires && Live(t, n.family)
                  && tenant == n.tenant && account == n.account && family == n.family && target == n.target
               then Some(n.id) else None)
  {
    var row := t.grants[n.id];
    assert forall g :: Redeems(t, g, tenant, account, family, target, n.digest, now) ==> g == n.id;
    assert Redeems(t, n.id, tenant, account, family, target, n.digest, now) <==>
             && Unredeemed(t, n.id) && now < n.expires && Live(t, n.family)
             && tenant == n.tenant && account == n.account && family == n.family && target == n.target;
  }

  /**
   A grant is redeemed in any later state exactly by its own owner, family and target, before the instant asked for,
   while the family is not revoked, if it was not redeemed before; its digest buys nothing else.
   */
  lemma GrantLifetime(states: seq<Tables>, requests: seq<Request>, i: nat, j: nat, tenant: Uuid, account: Uuid, family: Uuid, target: Digest, now: Instant)
    requires IsRun(states, requests) && i < |requests| && i < j < |states| && requests[i].OnGrants? && requests[i].grants.Issue?
    requires CreateGrant(states[i], requests[i].grants.grant, requests[i].grants.now).answer.Ok?
    ensures var n := requests[i].grants.grant;
            ConsumeGrant(states[j], tenant, account, family, target, n.digest, now).answer ==
            Ok(if NoneRedeemed(states, requests, i, j, n.id) && now < n.expires && Live(states[j], n.family)
                  && tenant == n.tenant && account == n.account && family == n.family && target == n.target
               then Some(n.id) else None)
  {
    var n := requests[i].grants.grant;
    assert GrantStored(states[i + 1], n) && Unredeemed(states[i + 1], n.id);
    RunPersists(states, requests, i + 1, j);
    UnredeemedUntilRedeemed(states, requests, i + 1, j, n.id);
    RunStoreInv(states, requests, j);
    RedeemedExactly(states[j], n, tenant, account, family, target, now);
  }

  // ---- Login transactions ----

  predicate Unopened(t: Tables, l: Uuid) {
    l in t.logins && t.logins[l].consumedAt.None?
  }

  ghost predicate OpensRow(t: Tables, r: Request, l: Uuid) {
    && r.OnLogins? && r.logins.Open?
    && var answer := ConsumeLogin(t, r.logins.digest, r.logins.stage, r.logins.binding, r.logins.now).answer;
       answer.Ok? && answer.value.id == l
  }

  lemma OpeningStep(t: Tables, q: LoginRequest, l: Uuid)
    requires Unopened(t, l)
    ensures Unopened(PerformLogins(t, q), l) <==> !OpensRow(t, OnLogins(q), l)
  {
  }

  lemma OthersOpenNothing(t: Tables, r: Request)
    requires !r.OnLogins?
    ensures Perform(t, r).logins == t.logins
  {
  }

  lemma LoginsRequest(t: Tables, q: LoginRequest)
    ensures Perform(t, OnLogins(q)) == PerformLogins(t, q)
  {
  }

  lemma UnopenedStep(t: Tables, r: Request, l: Uuid)
    requires Unopened(t, l)
    ensures Unopened(Perform(t, r), l) <==> !OpensRow(t, r, l)
  {
    if r.OnLogins? {
      LoginsRequest(t, r.logins);
      OpeningStep(t, r.logins, l);
    } else {
      OthersOpenNothing(t, r);
    }
  }

  lemma UnopenedNext(states: seq<Tables>, requests: seq<Request>, m: nat, l: Uuid)
    requires IsRun(states, requests) && m < |requests| && l in states[m].logins
    ensures Unopened(states[m + 1], l) <==> Unopened(states[m], l) && !OpensRow(states[m], requests[m], l)
  {
    RunPersists(states, requests, m, m + 1);
    if Unopened(states[m], l) {
      UnopenedStep(states[m], requests[m], l);
    }
  }

  /** A login transaction stays unopened exactly as long as nobody opens it. */
  lemma UnopenedUntilOpened(states: seq<Tables>, requests: seq<Request>, i: nat, j: nat, l: Uuid)
    requires IsRun(states, requests) && i <= j < |states| && Unopened(states[i], l)
    ensures Unopened(states[j], l) <==> forall m | i <= m < j :: !OpensRow(states[m], requests[m], l)
  {
    var alive := seq(|states|, m requires 0 <= m < |states| => Unopened(states[m], l));
    var hit := seq(|requests|, m requires 0 <= m < |requests| => OpensRow(states[m], requests[m], l));
    forall m | i <= m < j
      ensures alive[m + 1] <==> alive[m] && !hit[m]
    {
      RunPersists(states, requests, i, m);
      UnopenedNext(states, requests, m, l);
    }
    LastsUntilHit(alive, hit, i, j);
    assert forall m | i <= m < j :: hit[m] == OpensRow(states[m], requests[m], l);
  }

  ghost predicate NoneOpened(states: seq<Tables>, requests: seq<Request>, i: nat, j: nat, l: Uuid)
    requires j <= |requests| && j <= |states|
  {
    forall m | i < m < j :: !OpensRow(states[m], requests[m], l)
  }

  function LoginRow(n: NewLogin): Login {
    Login(n.tenant, n.account, n.digest, n.stage, n.binding, n.factor, n.expires, None)
  }

  /**
   A login transaction is opened in any later state exactly by its own stage and binding, before the instant asked for,
   if it was not opened before; and it hands over the account and factor it was made for.
   */
  lemma LoginLifetime(states: seq<Tables>, requests: seq<Request>, i: nat, j: nat, stage: Stage, binding: Digest, now: Instant)
    requires IsRun(states, requests) && i < |requests| && i < j < |states| && requests[i].OnLogins? && requests[i].logins.Begin?
    requires CreateLogin(states[i], requests[i].logins.login, requests[i].logins.now).answer.Ok?
    ensures var n := requests[i].logins.login;
            ConsumeLogin(states[j], n.digest, stage, binding, now).answer ==
            if NoneOpened(states, requests, i, j, n.id) && now < n.expires && stage == n.stage && binding == n.binding
            then Ok(OpenedLogin(n.id, LoginRow(n))) else Err(InvalidOrExpiredLoginTransaction)
  {
    var n := requests[i].logins.login;
    assert n.id in states[i + 1].logins && states[i + 1].logins[n.id] == LoginRow(n);
    RunPersists(states, requests, i + 1, j);
    UnopenedUntilOpened(states, requests, i + 1, j, n.id);
    RunStoreInv(states, requests, j);
    OpenedExactly(states[j], n, stage, binding, now);
  }

  lemma OpenedExactly(t: Tables, n: NewLogin, stage: Stage, binding: Digest, now: Instant)
    requires LoginDigestsUnique(t.logins) && n.id in t.logins && t.logins[n.id].digest == n.digest
    requires Unopened(t, n.id) ==> t.logins[n.id] == LoginRow(n)
    ensures ConsumeLogin(t, n.digest, stage, binding, now).answer ==
            if Unopened(t, n.id) && now < n.expires && stage == n.stage && binding == n.binding
            then Ok(OpenedLogin(n.id, LoginRow(n))) else Err(InvalidOrExpiredLoginTransaction)
  {
    assert forall l :: Opens(t, l, n.digest, stage, binding, now) ==> l == n.id;
    if Opens(t, n.id, n.digest, stage, binding, now) {
      OpensOnly(t, n.id, n.digest, stage, binding, now);
    }
  }

  // ---- When grants, logins and factors are made ----

  /** A grant is issued exactly for a live family of its own active account, with its end ahead and everything unused. */
  lemma GrantExactly(t: Tables, n: NewGrant, now: Instant)
    ensures CreateGrant(t, n, now).answer.Ok? <==>
              && now < n.expires && t.OwnsIn(n.tenant, n.account, Active)
              && OwnedAlike(t.families, n.family, n.tenant, n.account) && Live(t, n.family)
              && n.id !in t.grants && forall g | g in t.grants :: t.grants[g].digest != n.digest
    ensures CreateGrant(t, n, now).answer == Err(InvalidExpiry) <==> n.expires <= now
  {
  }

  /** A login transaction is begun exactly for an existing account, with its end ahead and everything unused. */
  lemma LoginExactly(t: Tables, n: NewLogin, now: Instant)
    ensures CreateLogin(t, n, now).answer.Ok? <==>
              && now < n.expires && t.Owns(n.tenant, n.account)
              && n.id !in t.logins && forall l | l in t.logins :: t.logins[l].digest != n.digest
    ensures CreateLogin(t, n, now).answer == Err(InvalidExpiry) <==> n.expires <= now
  {
  }

  /** A factor is activated exactly while pending for its own enrolling account; the account is then active, and nothing else changes. */
  lemma ActivationExactly(states: seq<Tables>, requests: seq<Request>, n: nat, tenant: Uuid, account: Uuid, factor: Uuid, step: int)
    requires IsRun(states, requests) && n < |states|
    ensures var t := states[n]; var done := ActivateFactor(t, tenant, account, factor, step);
            && (done.answer.Ok? <==> HasFactor(t, factor, tenant, account, PendingFactor) && t.OwnsIn(tenant, account, MfaEnrollmentRequired))
            && (done.answer.Ok? ==>
                  && done.tables.OwnsIn(tenant, account, Active) && Records(t, done.tables, tenant, account, factor, step)
                  && forall a | a in t.accounts && a != account :: done.tables.accounts[a] == t.accounts[a])
  {
    RunInv(states, requests, n);
    var t := states[n];
    if t.OwnsIn(tenant, account, MfaEnrollmentRequired) {
      assert FactorCount(t.accounts[account].state, ActiveFactors(t.factors, account));
      assert forall f | f in t.factors && HasFactor(t, f, tenant, account, ActiveFactor) :: f in ActiveFactors(t.factors, account);
    }
  }

  /** No step from this one on was accepted for the factor earlier in the run. */
  ghost predicate Newer(states: seq<Tables>, requests: seq<Request>, n: nat, factor: Uuid, step: int)
    requires n <= |requests| && n <= |states|
  {
    forall m, s | 0 <= m < n && Accepts(states[m], requests[m], factor, s) :: s < step
  }

  lemma NewerThanStored(states: seq<Tables>, requests: seq<Request>, n: nat, factor: Uuid, step: int)
    requires IsRun(states, requests) && n < |states| && factor in states[n].factors && states[n].factors[factor].lastStep.Some?
    ensures states[n].factors[factor].lastStep.value < step <==> Newer(states, requests, n, factor, step)
  {
    var stored := states[n].factors[factor].lastStep.value;
    var k := StoredStepWasAccepted(states, requests, n, factor);
    forall m, s | 0 <= m < n && Accepts(states[m], requests[m], factor, s)
      ensures s <= stored
    {
      if m < k {
        StepsIncrease(states, requests, m, k, factor, s, stored);
      } else if m == k {
        AcceptedStep(states[m], requests[m], factor, s);
        AcceptedStep(states[m], requests[m], factor, stored);
      }
    }
  }

  /** A code's step is accepted exactly for the active factor of its own active account, if it is newer than every one accepted before. */
  lemma StepExactly(states: seq<Tables>, requests: seq<Request>, n: nat, tenant: Uuid, account: Uuid, factor: Uuid, step: int)
    requires IsRun(states, requests) && n < |states|
    ensures ConsumeStep(states[n], tenant, account, factor, step).answer.Ok? <==>
              && states[n].OwnsIn(tenant, account, Active) && HasFactor(states[n], factor, tenant, account, ActiveFactor)
              && Newer(states, requests, n, factor, step)
  {
    RunInv(states, requests, n);
    if HasFactor(states[n], factor, tenant, account, ActiveFactor) {
      assert states[n].factors[factor].lastStep.Some?;
      NewerThanStored(states, requests, n, factor, step);
    }
  }
}
