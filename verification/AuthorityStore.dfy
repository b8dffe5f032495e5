/** The authority store: each method is one database transaction over the tables it holds. */
module AuthorityStores {
  import opened Results
  import opened AuthorityTables
  import opened Administration
  import opened SessionChains
  import opened AuthorityRuns
  import opened AuthorityTheorems

  // ---- One-use rows are found by a unique digest ----

  ghost predicate GrantDigestsUnique(grants: map<Uuid, Grant>) {
    forall g, h | g in grants && h in grants && grants[g].digest == grants[h].digest :: g == h
  }

  ghost predicate LoginDigestsUnique(logins: map<Uuid, Login>) {
    forall l, m | l in logins && m in logins && logins[l].digest == logins[m].digest :: l == m
  }

  ghost predicate StoreInv(t: Tables) {
    Inv(t) && GrantDigestsUnique(t.grants) && LoginDigestsUnique(t.logins)
  }

  lemma GrantsKeepDigests(t: Tables, q: GrantRequest)
    requires GrantDigestsUnique(t.grants)
    ensures GrantDigestsUnique(PerformGrants(t, q).grants)
  {
  }

  lemma LoginsKeepDigests(t: Tables, q: LoginRequest)
    requires LoginDigestsUnique(t.logins)
    ensures LoginDigestsUnique(PerformLogins(t, q).logins)
  {
  }

  lemma PerformKeepsStore(t: Tables, r: Request)
    requires StoreInv(t)
    ensures StoreInv(Perform(t, r))
  {
    PerformKeepsSessions(t, r);
    PerformKeepsFactors(t, r);
    if r.OnGrants? {
      GrantsKeepDigests(t, r.grants);
    } else if r.OnLogins? {
      LoginsKeepDigests(t, r.logins);
    }
  }

  lemma Kept(t: Tables, r: Request, t': Tables)
    requires StoreInv(t) && t' == Perform(t, r)
    ensures StoreInv(t')
  {
    PerformKeepsStore(t, r);
  }

  lemma RotateKept(t: Tables, presented: Digest, n: Successor, now: Instant, t': Tables)
    requires StoreInv(t) && t' == Rotate(t, presented, n, now).tables
    ensures StoreInv(t')
  {
    Kept(t, OnSessions(RotateCredential(presented, n, now)), t');
  }

  lemma IssueKept(t: Tables, n: NewGrant, now: Instant, t': Tables)
    requires StoreInv(t) && t' == CreateGrant(t, n, now).tables
    ensures StoreInv(t')
  {
    Kept(t, OnGrants(Issue(n, now)), t');
  }

  lemma RedeemKept(t: Tables, tenant: Uuid, account: Uuid, family: Uuid, target: Digest, digest: Digest, now: Instant, t': Tables)
    requires StoreInv(t) && t' == ConsumeGrant(t, tenant, account, family, target, digest, now).tables
    ensures StoreInv(t')
  {
    RedeemRequest(t, tenant, account, family, target, digest, now);
    Kept(t, OnGrants(Redeem(tenant, account, family, target, digest, now)), t');
  }

  lemma OpenKept(t: Tables, digest: Digest, stage: Stage, binding: Digest, now: Instant, t': Tables)
    requires StoreInv(t) && t' == ConsumeLogin(t, digest, stage, binding, now).tables
    ensures StoreInv(t')
  {
    Kept(t, OnLogins(Open(digest, stage, binding, now)), t');
  }

  // ---- Login transactions are single-use ----

  lemma {:induction false} RunStoreInv(states: seq<Tables>, requests: seq<Request>, i: nat)
    requires IsRun(states, requests) && i < |states|
    ensures StoreInv(states[i])
  {
    if i > 0 {
      RunStoreInv(states, requests, i - 1);
      PerformKeepsStore(states[i - 1], requests[i - 1]);
    }
  }

  /** The request opens the login transaction with this digest. */
  ghost predicate OpensLogin(t: Tables, r: Request, digest: Digest) {
    && r.OnLogins? && r.logins.Open? && r.logins.digest == digest
    && ConsumeLogin(t, digest, r.logins.stage, r.logins.binding, r.logins.now).answer.Ok?
  }

  lemma OpeningConsumes(t: Tables, r: Request, digest: Digest) returns (l: Uuid)
    requires OpensLogin(t, r, digest)
    ensures l in t.logins && t.logins[l].digest == digest && t.logins[l].consumedAt.None?
    ensures l in Perform(t, r).logins && Perform(t, r).logins[l].consumedAt.Some?
  {
    var q := r.logins;
    l := ConsumeLogin(t, digest, q.stage, q.binding, q.now).answer.value.id;
  }

  /** Over a whole run a login transaction is opened at most once, whatever stage and binding are presented. */
  lemma LoginOpensOnce(states: seq<Tables>, requests: seq<Request>, i: nat, j: nat, digest: Digest)
    requires IsRun(states, requests) && i < j < |requests| && OpensLogin(states[i], requests[i], digest)
    ensures !OpensLogin(states[j], requests[j], digest)
  {
    if OpensLogin(states[j], requests[j], digest) {
      var l := OpeningConsumes(states[i], requests[i], digest);
      var m := OpeningConsumes(states[j], requests[j], digest);
      RunPersists(states, requests, i, j);
      RunPersists(states, requests, i + 1, j);
      RunStoreInv(states, requests, j);
    }
  }

  // ---- Statements shared by transactions ----

  /** Spends the locked credential and issues its successor; an error rolls the transaction back. */
  method RotateLockedCredential(t: Tables, id: Uuid, n: Successor, now: Instant) returns (w: Tables, r: Result<Rotation, StoreError>)
    requires Rotatable(t, id)
    ensures RotateLocked(t, id, n, now) == if r.Ok? then Done(w, r) else Done(t, r)
  {
    w := t;
    var c := w.credentials[id];
    var consumed := 0;
    if c.consumedAt.None? {
      w := w.(credentials := w.credentials[id := c.(consumedAt := Some(now), replacedBy := Some(n.credential))]);
      consumed := 1;
    }
    if consumed != 1 {
      return w, Ok(Denied);
    }
    if !CredentialFree(w, n.credential, n.digest) {
      assert !CredentialFree(t, n.credential, n.digest);
      return w, Err(Database);
    }
    assert CredentialFree(t, n.credential, n.digest) by {
      assert forall c | c in t.credentials :: c in w.credentials && w.credentials[c].digest == t.credentials[c].digest;
    }
    w := w.(credentials := w.credentials[n.credential :=
              Credential(c.tenant, c.account, c.family, n.digest, n.expires, None, None)]);
    w := w.(sessions := RevokeSessions(w.sessions, c.family, now));
    if !SessionFree(w, n.session, n.accessDigest) {
      assert !SessionFree(t, n.session, n.accessDigest);
      return w, Err(Database);
    }
    assert SessionFree(t, n.session, n.accessDigest) by {
      assert forall s | s in t.sessions :: s in w.sessions && w.sessions[s].digest == t.sessions[s].digest;
    }
    w := w.(sessions := w.sessions[n.session :=
              Session(c.tenant, c.account, c.family, n.accessDigest, n.accessExpires, None)]);
    return w, Ok(Rotated(RotationRecord(c.tenant, c.account, c.family, n.credential, n.expires, n.session, n.accessExpires)));
  }

  /** Revokes a live family of this owner and every access session still open in it. */
  method RevokeLiveFamily(t: Tables, tenant: Uuid, account: Uuid, family: Uuid, now: Instant) returns (w: Tables, revoked: bool)
    ensures Done(w, Ok(revoked)) == RevokeFamily(t, tenant, account, family, now)
  {
    w, revoked := t, false;
    if family in w.families && w.families[family] == Family(tenant, account, None) {
      w := w.(families := w.families[family := w.families[family].(revokedAt := Some(now))]);
      revoked := true;
    }
    if revoked {
      w := w.(sessions := RevokeSessions(w.sessions, family, now));
    }
  }

  /** Looks the presented credential up under lock, and rotates it, detects its reuse or denies it. */
  method RotatePresented(t: Tables, presented: Digest, n: Successor, now: Instant) returns (w: Tables, r: Result<Rotation, StoreError>)
    requires OwnersMatch(t) && DigestsUnique(t.credentials)
    ensures Done(w, r) == Rotate(t, presented, n, now)
  {
    w := t;
    if n.expires <= now || n.accessExpires <= now { return w, Err(InvalidExpiry); }
    var matches := set c | && c in t.credentials && t.credentials[c].digest == presented
                           && t.credentials[c].family in t.families
                           && t.Owns(t.credentials[c].tenant, t.credentials[c].account);
    if matches == {} {
      assert forall c | c in t.credentials && t.credentials[c].digest == presented :: c in matches;
      return w, Ok(Denied);
    }
    var id :| id in matches;
    assert CredentialBy(t, presented) == Some(id);
    var c := t.credentials[id];
    if c.consumedAt.Some? {
      if t.families[c.family].revokedAt.None? {
        var revoked;
        w, revoked := RevokeLiveFamily(t, c.tenant, c.account, c.family, now);
        return w, Ok(ReuseDetected);
      }
      return w, Ok(Denied);
    }
    if t.families[c.family].revokedAt.Some? || c.expiresAt <= now || t.accounts[c.account].state != Active {
      return w, Ok(Denied);
    }
    var rotated;
    rotated, r := RotateLockedCredential(t, id, n, now);
    if r.Ok? { w := rotated; }
  }

  method InsertGrant(t: Tables, n: NewGrant, now: Instant) returns (w: Tables, r: Result<Uuid, StoreError>)
    ensures Done(w, r) == CreateGrant(t, n, now)
  {
    w := t;
    if n.expires <= now { return w, Err(InvalidExpiry); }
    if n.family !in w.families || w.families[n.family] != Family(n.tenant, n.account, None)
       || !w.OwnsIn(n.tenant, n.account, Active)
    {
      return w, Err(TargetNotFoundOrUnchanged);
    }
    if n.id in w.grants || exists g | g in w.grants :: w.grants[g].digest == n.digest { return w, Err(Database); }
    w := w.(grants := w.grants[n.id := Grant(n.tenant, n.account, n.family, n.target, n.digest, n.expires, None)]);
    return w, Ok(n.id);
  }

  method RedeemGrant(t: Tables, tenant: Uuid, account: Uuid, family: Uuid, target: Digest, digest: Digest, now: Instant)
    returns (w: Tables, r: Result<Option<Uuid>, StoreError>)
    requires GrantDigestsUnique(t.grants)
    ensures Done(w, r) == ConsumeGrant(t, tenant, account, family, target, digest, now)
  {
    w := t;
    var rows := set g |
      && g in w.grants && w.grants[g].digest == digest && w.grants[g].tenant == tenant && w.grants[g].account == account
      && w.grants[g].family == family && w.grants[g].target == target
      && w.grants[g].consumedAt.None? && w.grants[g].expiresAt > now
      && family in w.families && w.families[family].revokedAt.None?;
    assert forall g :: g in rows <==> Redeems(w, g, tenant, account, family, target, digest, now);
    if rows == {} {
      return w, Ok(None);
    }
    var g :| g in rows;
    w := w.(grants := w.grants[g := w.grants[g].(consumedAt := Some(now))]);
    return w, Ok(Some(g));
  }

  lemma OpensOnly(t: Tables, l: Uuid, digest: Digest, stage: Stage, binding: Digest, now: Instant)
    requires LoginDigestsUnique(t.logins) && Opens(t, l, digest, stage, binding, now)
    ensures ConsumeLogin(t, digest, stage, binding, now) ==
            Done(t.(logins := t.logins[l := t.logins[l].(stage := Consumed, consumedAt := Some(now))]), Ok(OpenedLogin(l, t.logins[l])))
  {
    var done := ConsumeLogin(t, digest, stage, binding, now);
    assert done.answer.Ok? && done.answer.value.id == l;
  }

  method OpenLogin(t: Tables, digest: Digest, stage: Stage, binding: Digest, now: Instant) returns (w: Tables, r: Result<OpenedLogin, StoreError>)
    requires LoginDigestsUnique(t.logins)
    ensures Done(w, r) == ConsumeLogin(t, digest, stage, binding, now)
  {
    w := t;
    var rows := set l |
      && l in w.logins && w.logins[l].digest == digest && w.logins[l].binding == binding
      && w.logins[l].stage == stage && w.logins[l].consumedAt.None? && w.logins[l].expiresAt > now;
    assert forall l :: l in rows <==> Opens(w, l, digest, stage, binding, now);
    if rows == {} {
      return w, Err(InvalidOrExpiredLoginTransaction);
    }
    var l :| l in rows;
    var found := w.logins[l];
    OpensOnly(t, l, digest, stage, binding, now);
    w := w.(logins := w.logins[l := found.(stage := Consumed, consumedAt := Some(now))]);
    return w, Ok(OpenedLogin(l, found));
  }

  datatype SessionOwner = SessionOwner(tenant: Uuid, account: Uuid, family: Uuid)

  function OwnerOf(row: Session): SessionOwner {
    SessionOwner(row.tenant, row.account, row.family)
  }

  /** A session with this token digest that authenticates at `now`. */
  predicate OpenSession(t: Tables, s: Uuid, digest: Digest, now: Instant) {
    Authenticates(t, s, now) && t.sessions[s].digest == digest
  }

  class AuthorityStore {
    var tables: Tables

    ghost predicate Valid()
      reads this
    {
      StoreInv(tables)
    }

    constructor ()
      ensures Valid() && tables == EMPTY
    {
      tables := EMPTY;
    }

    // ---- Sessions ----

    method CreateRefreshSession(n: NewSession, now: Instant) returns (r: Result<Uuid, StoreError>)
      requires Valid()
      modifies this
      ensures Valid() && Done(tables, r) == CreateSession(old(tables), n, now)
    {
      if n.refreshExpires <= now || n.accessExpires <= now { return Err(InvalidExpiry); }
      var w := tables;
      if !w.OwnsIn(n.tenant, n.account, Active) { return Err(TargetNotFoundOrUnchanged); }
      if n.family in w.families { return Err(Database); }
      w := w.(families := w.families[n.family := Family(n.tenant, n.account, None)]);
      if !CredentialFree(w, n.credential, n.refreshDigest) { return Err(Database); }
      w := w.(credentials := w.credentials[n.credential :=
                Credential(n.tenant, n.account, n.family, n.refreshDigest, n.refreshExpires, None, None)]);
      if !SessionFree(w, n.session, n.accessDigest) { return Err(Database); }
      w := w.(sessions := w.sessions[n.session :=
                Session(n.tenant, n.account, n.family, n.accessDigest, n.accessExpires, None)]);
      tables := w;
      Kept(old(tables), OnSessions(Create(n, now)), tables);
      return Ok(n.family);
    }

    method RotateRefreshCredential(presented: Digest, n: Successor, now: Instant) returns (r: Result<Rotation, StoreError>)
      requires Valid()
      modifies this
      ensures Valid() && Done(tables, r) == Rotate(old(tables), presented, n, now)
    {
      var w;
      w, r := RotatePresented(tables, presented, n, now);
      tables := w;
      RotateKept(old(tables), presented, n, now, tables);
    }

    method RevokeRefreshSessionFamily(tenant: Uuid, account: Uuid, family: Uuid, now: Instant) returns (r: Result<bool, StoreError>)
      requires Valid()
      modifies this
      ensures Valid() && Done(tables, r) == RevokeFamily(old(tables), tenant, account, family, now)
    {
      var w, revoked := RevokeLiveFamily(tables, tenant, account, family, now);
      tables := w;
      Kept(old(tables), OnSessions(Revoke(tenant, account, family, now)), tables);
      return Ok(revoked);
    }

    /** The owner and family behind an access token that authenticates, if it does. */
    method AccessSession(digest: Digest, now: Instant) returns (r: Option<SessionOwner>)
      ensures r.Some? <==> exists s :: OpenSession(tables, s, digest, now)
      ensures r.Some? ==> exists s :: OpenSession(tables, s, digest, now) && r.value == OwnerOf(tables.sessions[s])
    {
      var rows := set s |
        && s in tables.sessions && tables.sessions[s].digest == digest
        && tables.sessions[s].family in tables.families
        && tables.Owns(tables.sessions[s].tenant, tables.sessions[s].account)
        && tables.sessions[s].revokedAt.None? && tables.sessions[s].expiresAt > now
        && tables.families[tables.sessions[s].family].revokedAt.None?;
      var active := set s | s in rows && tables.accounts[tables.sessions[s].account].state == Active;
      assert forall s :: s in active <==> OpenSession(tables, s, digest, now);
      if active == {} { return None; }
      var s :| s in active;
      return Some(OwnerOf(tables.sessions[s]));
    }

    /** The second read of an authentication, which other transactions may precede: the roles stored by then. */
    method RolesForAccount(tenant: Uuid, account: Uuid) returns (roles: set<Role>)
      ensures roles == RolesOf(tables, tenant, account)
    {
      roles := set row | row in tables.roles && row.0 == tenant && row.1 == account :: row.2;
      forall role
        ensures role in roles <==> role in RolesOf(tables, tenant, account)
      {
        assert (tenant, account, role).2 == role;
        if role in roles {
          var row :| row in tables.roles && row.0 == tenant && row.1 == account && row.2 == role;
          assert row == (tenant, account, role);
        }
      }
    }

    // ---- Factors ----

    method CreatePendingTotpFactor(tenant: Uuid, account: Uuid, factor: Uuid) returns (r: Result<(), StoreError>)
      requires Valid()
      modifies this
      ensures Valid() && Done(tables, r) == CreatePendingFactor(old(tables), tenant, account, factor)
    {
      if !tables.Owns(tenant, account) { return Err(TargetNotFoundOrUnchanged); }
      if factor in tables.factors { return Err(Database); }
      tables := tables.(factors := tables.factors[factor := Factor(tenant, account, PendingFactor, None)]);
      Kept(old(tables), OnFactors(CreatePending(tenant, account, factor)), tables);
      return Ok(());
    }

    method ActivateTotpFactor(tenant: Uuid, account: Uuid, factor: Uuid, step: int) returns (r: Result<(), StoreError>)
      requires Valid()
      modifies this
      ensures Valid() && Done(tables, r) == ActivateFactor(old(tables), tenant, account, factor, step)
    {
      var w := tables;
      if !HasFactor(w, factor, tenant, account, PendingFactor) || !w.OwnsIn(tenant, account, MfaEnrollmentRequired) {
        return Err(TargetNotFoundOrUnchanged);
      }
      if exists f | f in w.factors :: HasFactor(w, f, tenant, account, ActiveFactor) { return Err(Database); }
      w := w.(factors := w.factors[factor := w.factors[factor].(status := ActiveFactor, lastStep := Some(step))]);
      w := w.(accounts := w.accounts[account := w.accounts[account].(state := Active)]);
      tables := w;
      Kept(old(tables), OnFactors(Activate(tenant, account, factor, step)), tables);
      return Ok(());
    }

    method ConsumeTotpStep(tenant: Uuid, account: Uuid, factor: Uuid, step: int) returns (r: Result<(), StoreError>)
      requires Valid()
      modifies this
      ensures Valid() && Done(tables, r) == ConsumeStep(old(tables), tenant, account, factor, step)
    {
      var affected := 0;
      if HasFactor(tables, factor, tenant, account, ActiveFactor) && tables.OwnsIn(tenant, account, Active) {
        var last := tables.factors[factor].lastStep;
        if last.None? || last.value < step {
          tables := tables.(factors := tables.factors[factor := tables.factors[factor].(lastStep := Some(step))]);
          affected := 1;
        }
      }
      Kept(old(tables), OnFactors(Consume(tenant, account, factor, step)), tables);
      return if affected == 1 then Ok(()) else Err(TargetNotFoundOrUnchanged);
    }

    // ---- Step-up grants ----

    method CreateStepUpGrant(n: NewGrant, now: Instant) returns (r: Result<Uuid, StoreError>)
      requires Valid()
      modifies this
      ensures Valid() && Done(tables, r) == CreateGrant(old(tables), n, now)
    {
      var w;
      w, r := InsertGrant(tables, n, now);
      tables := w;
      IssueKept(old(tables), n, now, tables);
    }

    method ConsumeStepUpGrant(tenant: Uuid, account: Uuid, family: Uuid, target: Digest, digest: Digest, now: Instant)
      returns (r: Result<Option<Uuid>, StoreError>)
      requires Valid()
      modifies this
      ensures Valid() && Done(tables, r) == ConsumeGrant(old(tables), tenant, account, family, target, digest, now)
    {
      var w;
      w, r := RedeemGrant(tables, tenant, account, family, target, digest, now);
      tables := w;
      RedeemKept(old(tables), tenant, account, family, target, digest, now, tables);
    }

    // ---- Login transactions ----

    method CreateLoginTransaction(n: NewLogin, now: Instant) returns (r: Result<(), StoreError>)
      requires Valid()
      modifies this
      ensures Valid() && Done(tables, r) == CreateLogin(old(tables), n, now)
    {
      if n.expires <= now { return Err(InvalidExpiry); }
      if !tables.Owns(n.tenant, n.account) { return Err(TargetNotFoundOrUnchanged); }
      if n.id in tables.logins || exists l | l in tables.logins :: tables.logins[l].digest == n.digest { return Err(Database); }
      tables := tables.(logins := tables.logins[n.id :=
                          Login(n.tenant, n.account, n.digest, n.stage, n.binding, n.factor, n.expires, None)]);
      Kept(old(tables), OnLogins(Begin(n, now)), tables);
      return Ok(());
    }

    method ConsumeLoginTransaction(digest: Digest, stage: Stage, binding: Digest, now: Instant) returns (r: Result<OpenedLogin, StoreError>)
      requires Valid()
      modifies this
      ensures Valid() && Done(tables, r) == ConsumeLogin(old(tables), digest, stage, binding, now)
    {
      var w;
      w, r := OpenLogin(tables, digest, stage, binding, now);
      tables := w;
      OpenKept(old(tables), digest, stage, binding, now, tables);
    }

    // ---- Accounts ----

    method BootstrapTenant(tenant: Uuid, owner: Uuid, domain: string, localpart: string) returns (r: Result<(), StoreError>)
      requires Valid()
      modifies this
      ensures Valid() && Done(tables, r) == Bootstrap(old(tables), tenant, owner, domain, localpart)
    {
      var w := tables;
      if tenant in w.tenants || domain in w.tenants.Values { return Err(Database); }
      w := w.(tenants := w.tenants[tenant := domain]);
      if owner in w.accounts { return Err(Database); }
      w := w.(accounts := w.accounts[owner := Account(tenant, localpart, MfaEnrollmentRequired)]);
      w := w.(roles := w.roles + {(tenant, owner, Owner)});
      tables := w;
      Kept(old(tables), OnAccounts(AccountRequest.BootstrapTenant(tenant, owner, domain, localpart)), tables);
      return Ok(());
    }

    method InviteAccount(command: InviteAccount, id: Uuid) returns (r: Result<Uuid, StoreError>)
      requires Valid()
      modifies this
      ensures Valid() && Done(tables, r) == Invite(old(tables), command, id)
    {
      if !command.Valid() { return Err(Refused); }
      var w := tables;
      if id in w.accounts || command.tenant !in w.tenants || LocalpartTaken(w, command.tenant, command.localpart) {
        return Err(Database);
      }
      w := w.(accounts := w.accounts[id := Account(command.tenant, command.localpart, MfaEnrollmentRequired)]);
      w := w.(roles := w.roles + {(command.tenant, id, command.role)});
      tables := w;
      Kept(old(tables), OnAccounts(InviteTo(command, id)), tables);
      return Ok(id);
    }

    method ChangeAccountRole(command: ChangeRole) returns (r: Result<(), StoreError>)
      requires Valid()
      modifies this
      ensures Valid() && Done(tables, r) == ApplyRole(old(tables), command)
    {
      if !command.Valid() { return Err(Refused); }
      var row := (command.tenant, command.target, command.role);
      var roles := tables.roles;
      if command.grant {
        if tables.Owns(command.tenant, command.target) { roles := roles + {row}; }
      } else {
        roles := roles - {row};
      }
      if roles == tables.roles { return Err(TargetNotFoundOrUnchanged); }
      tables := tables.(roles := roles);
      Kept(old(tables), OnAccounts(Change(command)), tables);
      return Ok(());
    }
  }
}
