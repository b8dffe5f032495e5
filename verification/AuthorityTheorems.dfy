/** What holds over every run of the authority's store, however its transactions interleave. */
module AuthorityTheorems {
  import opened Results
  import opened AuthorityTables
  import opened Administration
  import opened SessionChains
  import opened AuthorityRuns

  // ---- What holds in every state, and what lasts from a state to a later one ----

  ghost predicate Inv(t: Tables) {
    SessionsInv(t) && FactorsInv(t)
  }

  lemma {:induction false} RunInv(states: seq<Tables>, requests: seq<Request>, i: nat)
    requires IsRun(states, requests) && i < |states|
    ensures Inv(states[i])
  {
    if i > 0 {
      RunInv(states, requests, i - 1);
      PerformKeepsSessions(states[i - 1], requests[i - 1]);
      PerformKeepsFactors(states[i - 1], requests[i - 1]);
    }
  }

  ghost predicate Persists(t: Tables, t': Tables) {
    && AccountsPersist(t.accounts, t'.accounts) && FactorsPersist(t.factors, t'.factors)
    && FamiliesPersist(t.families, t'.families) && CredentialsPersist(t.credentials, t'.credentials)
    && SessionsPersist(t.sessions, t'.sessions) && GrantsPersist(t.grants, t'.grants) && LoginsPersist(t.logins, t'.logins)
  }

  lemma PerformPersists(t: Tables, r: Request)
    ensures Persists(t, Perform(t, r))
  {
  }

  lemma {:induction false} RunPersists(states: seq<Tables>, requests: seq<Request>, i: nat, j: nat)
    requires IsRun(states, requests) && i <= j < |states|
    ensures Persists(states[i], states[j])
    decreases j
  {
    if i < j {
      RunPersists(states, requests, i, j - 1);
      PerformPersists(states[j - 1], requests[j - 1]);
      PersistsThrough(states[i], states[j - 1], states[j]);
    }
  }

  lemma PersistsThrough(a: Tables, b: Tables, c: Tables)
    requires Persists(a, b) && Persists(b, c)
    ensures Persists(a, c)
  {
  }

  // ---- Refresh rotation ----

  /** The request presents a refresh credential and is answered so. */
  ghost predicate Answers(t: Tables, r: Request, answer: Rotation) {
    && r.OnSessions? && r.sessions.RotateCredential?
    && Rotate(t, r.sessions.presented, r.sessions.successor, r.sessions.now).answer == Ok(answer)
  }

  /** The request presents this credential. */
  ghost predicate Presents(t: Tables, r: Request, credential: Uuid) {
    && r.OnSessions? && r.sessions.RotateCredential?
    && credential in t.credentials && CredentialBy(t, r.sessions.presented) == Some(credential)
  }

  /** The request rotates the credential it presents, and reports its successor. */
  ghost predicate Rotates(t: Tables, r: Request, credential: Uuid, record: RotationRecord) {
    Presents(t, r, credential) && Answers(t, r, Rotated(record))
  }

  /** The request presents a credential of the family and its reuse is detected. */
  ghost predicate Detects(t: Tables, r: Request, credential: Uuid, family: Uuid) {
    Presents(t, r, credential) && t.credentials[credential].family == family && Answers(t, r, ReuseDetected)
  }

  ghost predicate Revoked(t: Tables, family: Uuid) {
    family in t.families && t.families[family].revokedAt.Some?
  }

  ghost predicate Spent(t: Tables, credential: Uuid) {
    credential in t.credentials && t.credentials[credential].consumedAt.Some?
  }

  /** A rotation spends an unspent credential of a live family, and its successor is the one it reports. */
  lemma RotationSpends(t: Tables, r: Request, credential: Uuid, record: RotationRecord)
    requires Rotates(t, r, credential, record)
    ensures var t' := Perform(t, r);
            && Spends(t, t', credential, record) && Issues(t', r.sessions.successor, record)
  {
    PerformRotates(t, r);
  }

  lemma PerformRotates(t: Tables, r: Request)
    requires r.OnSessions? && r.sessions.RotateCredential?
    ensures Perform(t, r) == Rotate(t, r.sessions.presented, r.sessions.successor, r.sessions.now).tables
  {
  }

  /** A detected reuse revokes a family that was live. */
  lemma ReuseRevokes(t: Tables, r: Request, credential: Uuid, family: Uuid)
    requires SessionsInv(t) && Detects(t, r, credential, family)
    ensures Live(t, family) && Revoked(Perform(t, r), family)
  {
    PerformRotates(t, r);
    DetectionRevokes(t, r.sessions.presented, r.sessions.successor, r.sessions.now);
  }

  /** Presenting a spent credential of a live family is always detected. */
  lemma SpentIsDetected(t: Tables, credential: Uuid, successor: Successor, now: Instant)
    requires SessionsInv(t) && Spent(t, credential) && !Revoked(t, t.credentials[credential].family)
    requires successor.expires > now && successor.accessExpires > now
    ensures Detects(t, OnSessions(RotateCredential(t.credentials[credential].digest, successor, now)),
                    credential, t.credentials[credential].family)
  {
    assert CredentialBy(t, t.credentials[credential].digest) == Some(credential);
  }

  /** The three reasons to deny a presented credential: revoked family, expiry, unavailable account. */
  ghost predicate Deniable(t: Tables, credential: Uuid, now: Instant)
    requires credential in t.credentials
  {
    var c := t.credentials[credential];
    Revoked(t, c.family) || (c.consumedAt.None? && (c.expiresAt <= now || !t.OwnsIn(c.tenant, c.account, Active)))
  }

  /** A known credential is denied for those reasons only: a locked unspent credential is never denied. */
  lemma DeniedExactly(t: Tables, credential: Uuid, successor: Successor, now: Instant)
    requires SessionsInv(t) && credential in t.credentials
    requires successor.expires > now && successor.accessExpires > now
    ensures Answers(t, OnSessions(RotateCredential(t.credentials[credential].digest, successor, now)), Denied)
       <==> Deniable(t, credential, now)
  {
    RotationDenied(t, credential, successor, now);
  }

  lemma RotationDenied(t: Tables, credential: Uuid, successor: Successor, now: Instant)
    requires OwnersMatch(t) && DigestsUnique(t.credentials) && credential in t.credentials
    requires successor.expires > now && successor.accessExpires > now
    ensures Rotate(t, t.credentials[credential].digest, successor, now).answer == Ok(Denied) <==> Deniable(t, credential, now)
  {
    assert CredentialBy(t, t.credentials[credential].digest) == Some(credential);
  }

  /** Nothing of a revoked family rotates, is detected again, authenticates, or steps up. */
  ghost predicate Dead(t: Tables, family: Uuid) {
    && (forall r, c, record :: Rotates(t, r, c, record) ==> record.family != family && t.credentials[c].family != family)
    && (forall r, c :: !Detects(t, r, c, family))
    && (forall s, now :: Authenticates(t, s, now) ==> t.sessions[s].family != family)
    && (forall n: NewGrant, now :: n.family == family ==> CreateGrant(t, n, now).answer.Err?)
    && (forall tenant, account, target, digest, now ::
          ConsumeGrant(t, tenant, account, family, target, digest, now).answer == Ok(None))
  }

  lemma RevokedIsDead(t: Tables, family: Uuid)
    requires SessionsInv(t) && Revoked(t, family)
    ensures Dead(t, family)
  {
    RotationsAreDead(t, family);
    assert forall s, now :: Authenticates(t, s, now) ==> t.sessions[s].family != family by { SessionsAreDead(t, family); }
    GrantsAreDead(t, family);
  }

  lemma RotationsAreDead(t: Tables, family: Uuid)
    requires SessionsInv(t) && Revoked(t, family)
    ensures forall r, c, record :: Rotates(t, r, c, record) ==> record.family != family && t.credentials[c].family != family
    ensures forall r, c :: !Detects(t, r, c, family)
  {
    forall r, c, record | Rotates(t, r, c, record)
      ensures record.family != family && t.credentials[c].family != family
    {
      RotationSpends(t, r, c, record);
    }
    forall r, c
      ensures !Detects(t, r, c, family)
    {
      if Detects(t, r, c, family) { ReuseRevokes(t, r, c, family); }
    }
  }

  lemma SessionsAreDead(t: Tables, family: Uuid)
    requires SessionsInv(t) && Revoked(t, family)
    ensures forall s, now :: Authenticates(t, s, now) ==> t.sessions[s].family != family
  {
  }

  lemma GrantsAreDead(t: Tables, family: Uuid)
    requires Revoked(t, family)
    ensures forall n: NewGrant, now :: n.family == family ==> CreateGrant(t, n, now).answer.Err?
    ensures forall tenant, account, target, digest, now ::
              ConsumeGrant(t, tenant, account, family, target, digest, now).answer == Ok(None)
  {
  }

  /** Once reuse of a family is detected, the family is dead in every later state. */
  lemma ReuseIsFinal(states: seq<Tables>, requests: seq<Request>, i: nat, j: nat, credential: Uuid, family: Uuid)
    requires IsRun(states, requests) && i < |requests| && i < j < |states|
    requires Detects(states[i], requests[i], credential, family)
    ensures Dead(states[j], family)
  {
    RunInv(states, requests, i);
    RunInv(states, requests, j);
    ReuseRevokes(states[i], requests[i], credential, family);
    RunPersists(states, requests, i + 1, j);
    RevokedIsDead(states[j], family);
  }

  /** A credential rotated at one step is spent at every later one. */
  lemma RotatedStaysSpent(states: seq<Tables>, requests: seq<Request>, i: nat, j: nat, credential: Uuid, record: RotationRecord)
    requires IsRun(states, requests) && i < |requests| && i < j < |states|
    requires Rotates(states[i], requests[i], credential, record)
    ensures Spent(states[j], credential)
  {
    RotationSpends(states[i], requests[i], credential, record);
    RunPersists(states, requests, i + 1, j);
  }

  /** No credential is rotated twice. */
  lemma RotatedOnce(states: seq<Tables>, requests: seq<Request>, i: nat, j: nat, credential: Uuid, a: RotationRecord, b: RotationRecord)
    requires IsRun(states, requests) && i < j < |requests|
    requires Rotates(states[i], requests[i], credential, a)
    ensures !Rotates(states[j], requests[j], credential, b)
  {
    RotatedStaysSpent(states, requests, i, j, credential, a);
    if Rotates(states[j], requests[j], credential, b) {
      RotationSpends(states[j], requests[j], credential, b);
    }
  }

  /** In every state the credentials of a family are one chain, with one live access session until revocation. */
  lemma RefreshChains(states: seq<Tables>, requests: seq<Request>, i: nat, family: Uuid)
    requires IsRun(states, requests) && i < |states| && family in states[i].families
    ensures exists chain :: IsChain(states[i].credentials, family, chain)
    ensures |LiveSessions(states[i].sessions, family)| == if Revoked(states[i], family) then 0 else 1
  {
    RunInv(states, requests, i);
    assert Chained(states[i].credentials, family);
  }

  /** At most one access session of a family authenticates, whatever clocks are read. */
  lemma OneAccessSession(states: seq<Tables>, requests: seq<Request>, i: nat, a: Uuid, b: Uuid, now: Instant, later: Instant)
    requires IsRun(states, requests) && i < |states|
    requires Authenticates(states[i], a, now) && Authenticates(states[i], b, later)
    requires states[i].sessions[a].family == states[i].sessions[b].family
    ensures a == b
  {
    RunInv(states, requests, i);
    var t, family := states[i], states[i].sessions[a].family;
    var live := LiveSessions(t.sessions, family);
    assert OneLiveSession(t.families[family], t.sessions, family);
    assert a in live && b in live;
    assert |live - {a}| == 0 && b !in live - {a};
  }

  // ---- Multi-factor authentication ----

  datatype PasswordOutcome = DenyLogin | EnrollFirst | ChallengeTotp | LogIn

  predicate Privileged(roles: set<Role>) {
    Owner in roles || Admin in roles
  }

  /** The decision after a right password, from three reads of the store. */
  function Authenticate(state: AccountState, roles: set<Role>, hasTotp: bool): (r: PasswordOutcome)
    ensures r == LogIn <==> state == Active && !Privileged(roles) && !hasTotp
    ensures r == ChallengeTotp <==> state == Active && hasTotp
    ensures r == EnrollFirst <==> state == MfaEnrollmentRequired
  {
    if state != Active then
      if state == MfaEnrollmentRequired then EnrollFirst else DenyLogin
    else if Privileged(roles) || hasTotp then
      if !hasTotp then DenyLogin else ChallengeTotp
    else LogIn
  }

  predicate HasActiveTotp(t: Tables, tenant: Uuid, account: Uuid) {
    exists f | f in t.factors :: HasFactor(t, f, tenant, account, ActiveFactor)
  }

  /** An active account owns exactly one active factor. */
  lemma OneActiveFactor(states: seq<Tables>, requests: seq<Request>, i: nat, tenant: Uuid, account: Uuid)
    requires IsRun(states, requests) && i < |states| && states[i].OwnsIn(tenant, account, Active)
    ensures HasActiveTotp(states[i], tenant, account)
    ensures |ActiveFactors(states[i].factors, account)| == 1
  {
    RunInv(states, requests, i);
    var t := states[i];
    assert FactorCount(t.accounts[account].state, ActiveFactors(t.factors, account));
    assert ActiveFactors(t.factors, account) != {};
    var f :| f in ActiveFactors(t.factors, account);
    assert OwnedBy(t.accounts, t.factors[f]);
    assert HasFactor(t, f, tenant, account, ActiveFactor);
  }

  /** The three reads may fall in three states of a run: an active account is always challenged. */
  lemma PasswordNeverSuffices(states: seq<Tables>, requests: seq<Request>, i: nat, j: nat, k: nat, tenant: Uuid, account: Uuid)
    requires IsRun(states, requests) && i <= j <= k < |states| && states[i].Owns(tenant, account)
    ensures Authenticate(states[i].accounts[account].state, RolesOf(states[j], tenant, account),
                         HasActiveTotp(states[k], tenant, account))
         == match states[i].accounts[account].state
            case Active => ChallengeTotp
            case MfaEnrollmentRequired => EnrollFirst
            case _ => DenyLogin
  {
    if states[i].accounts[account].state == Active {
      OneActiveFactor(states, requests, i, tenant, account);
      var f :| f in states[i].factors && HasFactor(states[i], f, tenant, account, ActiveFactor);
      RunPersists(states, requests, i, k);
      assert HasFactor(states[k], f, tenant, account, ActiveFactor);
    }
  }

  // ---- One-time codes ----

  /** The request has `step` accepted for the factor, by activating it or by consuming the step. */
  ghost predicate Accepts(t: Tables, r: Request, factor: Uuid, step: int) {
    && r.OnFactors? && !r.factors.CreatePending? && r.factors.factor == factor && r.factors.step == step
    && (r.factors.Activate? ==> ActivateFactor(t, r.factors.tenant, r.factors.account, factor, step).answer.Ok?)
    && (r.factors.Consume? ==> ConsumeStep(t, r.factors.tenant, r.factors.account, factor, step).answer.Ok?)
  }

  ghost predicate AcceptsNothing(t: Tables, r: Request, factor: Uuid) {
    forall step :: !Accepts(t, r, factor, step)
  }

  lemma AcceptedStep(t: Tables, r: Request, factor: Uuid, step: int)
    requires Accepts(t, r, factor, step)
    ensures var t' := Perform(t, r);
            && factor in t'.factors && t'.factors[factor].status == ActiveFactor
            && t'.factors[factor].lastStep == Some(step)
    ensures factor in t.factors
    ensures t.factors[factor].status == ActiveFactor ==> t.factors[factor].lastStep.None? || t.factors[factor].lastStep.value < step
  {
  }

  /** The steps accepted for one factor are strictly increasing over the run. */
  lemma StepsIncrease(states: seq<Tables>, requests: seq<Request>, i: nat, j: nat, factor: Uuid, a: int, b: int)
    requires IsRun(states, requests) && i < j < |requests|
    requires Accepts(states[i], requests[i], factor, a) && Accepts(states[j], requests[j], factor, b)
    ensures a < b
  {
    AcceptedStep(states[i], requests[i], factor, a);
    RunPersists(states, requests, i + 1, j);
    AcceptedStep(states[j], requests[j], factor, b);
  }

  /** A stored step is either accepted by this request or what it was, with nothing accepted. */
  lemma StepChanges(t: Tables, r: Request, factor: Uuid)
    requires factor in Perform(t, r).factors && Perform(t, r).factors[factor].lastStep.Some?
    ensures var stored := Perform(t, r).factors[factor].lastStep;
            || Accepts(t, r, factor, stored.value)
            || (factor in t.factors && t.factors[factor].lastStep == stored && AcceptsNothing(t, r, factor))
  {
    if r.OnFactors? {
      FactorStepChanges(t, r.factors, factor);
    }
    forall s | Accepts(t, r, factor, s)
      ensures Perform(t, r).factors[factor].lastStep == Some(s)
    {
      AcceptedStep(t, r, factor, s);
    }
  }

  lemma ExplainStep(t: Tables, r: Request, factor: Uuid)
    ensures StepExplained(t, r, Perform(t, r), factor)
  {
    var t' := Perform(t, r);
    if factor in t'.factors && t'.factors[factor].lastStep.Some? {
      StepChanges(t, r, factor);
    }
  }

  lemma FactorStepChanges(t: Tables, q: FactorRequest, factor: Uuid)
    requires factor in PerformFactors(t, q).factors && PerformFactors(t, q).factors[factor].lastStep.Some?
    ensures var stored := PerformFactors(t, q).factors[factor].lastStep;
            Accepts(t, OnFactors(q), factor, stored.value) || (factor in t.factors && t.factors[factor].lastStep == stored)
  {
  }

  /** From the first state to the second the factor's stored step stays, or `r` accepts the new one. */
  ghost predicate StepExplained(t: Tables, r: Request, t': Tables, factor: Uuid) {
    factor in t'.factors && t'.factors[factor].lastStep.Some? ==>
      || Accepts(t, r, factor, t'.factors[factor].lastStep.value)
      || (factor in t.factors && t.factors[factor].lastStep == t'.factors[factor].lastStep && AcceptsNothing(t, r, factor))
  }

  lemma {:induction false} LastAcceptance(states: seq<Tables>, requests: seq<Request>, i: nat, factor: Uuid) returns (k: nat)
    requires |states| == |requests| + 1 && i < |states| && factor !in states[0].factors
    requires forall j | 0 <= j < |requests| :: StepExplained(states[j], requests[j], states[j + 1], factor)
    requires factor in states[i].factors && states[i].factors[factor].lastStep.Some?
    ensures k < i && Accepts(states[k], requests[k], factor, states[i].factors[factor].lastStep.value)
    ensures forall j | k < j < i :: AcceptsNothing(states[j], requests[j], factor)
  {
    k := i - 1;
    assert StepExplained(states[k], requests[k], states[k + 1], factor);
    if !Accepts(states[k], requests[k], factor, states[i].factors[factor].lastStep.value) {
      k := LastAcceptance(states, requests, k, factor);
    }
  }

  /** The stored step is the last one that was accepted. */
  lemma StoredStepWasAccepted(states: seq<Tables>, requests: seq<Request>, i: nat, factor: Uuid)
    returns (k: nat)
    requires IsRun(states, requests) && i < |states|
    requires factor in states[i].factors && states[i].factors[factor].lastStep.Some?
    ensures k < i && Accepts(states[k], requests[k], factor, states[i].factors[factor].lastStep.value)
    ensures forall j | k < j < i :: AcceptsNothing(states[j], requests[j], factor)
  {
    forall j | 0 <= j < |requests|
      ensures StepExplained(states[j], requests[j], states[j + 1], factor)
    {
      ExplainStep(states[j], requests[j], factor);
    }
    k := LastAcceptance(states, requests, i, factor);
  }

  // ---- Owners ----

  /** The Owner rows of a tenant. */
  function Owners(roles: set<(Uuid, Uuid, Role)>, tenant: Uuid): set<(Uuid, Uuid, Role)> {
    set row | row in roles && row.0 == tenant && row.2 == Owner
  }

  /** Writing a role row adds an owner to that row's tenant, or leaves owners alone. */
  lemma RoleWritten(roles: set<(Uuid, Uuid, Role)>, row: (Uuid, Uuid, Role), tenant: Uuid)
    ensures Owners(roles + {row}, tenant) == Owners(roles, tenant) + if row.0 == tenant && row.2 == Owner then {row} else {}
    ensures row.2 != Owner ==> Owners(roles - {row}, tenant) == Owners(roles, tenant)
  {
  }

  /** Every known tenant has one owner and unknown ones have none. */
  ghost predicate OneOwner(t: Tables, tenant: Uuid) {
    |Owners(t.roles, tenant)| == if tenant in t.tenants then 1 else 0
  }

  /** The owners of a known tenant are what they were. */
  ghost predicate OwnersKept(t: Tables, t': Tables, tenant: Uuid) {
    tenant in t.tenants ==> tenant in t'.tenants && Owners(t'.roles, tenant) == Owners(t.roles, tenant)
  }

  lemma BootstrapKeepsOwners(t: Tables, id: Uuid, owner: Uuid, domain: string, localpart: string, tenant: Uuid)
    requires OneOwner(t, tenant)
    ensures OneOwner(Bootstrap(t, id, owner, domain, localpart).tables, tenant)
    ensures OwnersKept(t, Bootstrap(t, id, owner, domain, localpart).tables, tenant)
  {
    RoleWritten(t.roles, (id, owner, Owner), tenant);
  }

  lemma InviteKeepsOwners(t: Tables, invite: InviteAccount, id: Uuid, tenant: Uuid)
    ensures Owners(Invite(t, invite, id).tables.roles, tenant) == Owners(t.roles, tenant)
  {
    var row := (invite.tenant, id, invite.role);
    var after := Invite(t, invite, id).tables.roles;
    if after != t.roles {
      assert row.2 != Owner && after == t.roles + {row};
      RoleWritten(t.roles, row, tenant);
    }
  }

  lemma ChangeKeepsOwners(t: Tables, change: ChangeRole, tenant: Uuid)
    ensures Owners(ApplyRole(t, change).tables.roles, tenant) == Owners(t.roles, tenant)
  {
    var row := (change.tenant, change.target, change.role);
    var after := ApplyRole(t, change).tables.roles;
    if after != t.roles {
      assert row.2 != Owner && (after == t.roles + {row} || after == t.roles - {row});
      RoleWritten(t.roles, row, tenant);
    }
  }

  lemma SameOwners(t: Tables, t': Tables, tenant: Uuid)
    requires OneOwner(t, tenant) && t'.tenants == t.tenants && Owners(t'.roles, tenant) == Owners(t.roles, tenant)
    ensures OneOwner(t', tenant) && OwnersKept(t, t', tenant)
  {
  }

  lemma AccountsKeepOwners(t: Tables, q: AccountRequest, tenant: Uuid)
    requires OneOwner(t, tenant)
    ensures OneOwner(PerformAccounts(t, q), tenant) && OwnersKept(t, PerformAccounts(t, q), tenant)
  {
    match q
    case BootstrapTenant(id, owner, domain, localpart) => BootstrapKeepsOwners(t, id, owner, domain, localpart, tenant);
    case InviteTo(invite, id) =>
      InviteKeepsOwners(t, invite, id, tenant);
      SameOwners(t, Invite(t, invite, id).tables, tenant);
    case Change(change) =>
      ChangeKeepsOwners(t, change, tenant);
      SameOwners(t, ApplyRole(t, change).tables, tenant);
    case DisableAccount(account, permanent) => SameOwners(t, Disable(t, account, permanent).tables, tenant);
  }

  lemma PerformKeepsOwners(t: Tables, r: Request, tenant: Uuid)
    requires OneOwner(t, tenant)
    ensures OneOwner(Perform(t, r), tenant) && OwnersKept(t, Perform(t, r), tenant)
  {
    if r.OnAccounts? {
      AccountsKeepOwners(t, r.accounts, tenant);
    }
  }

  /** A tenant's one owner is fixed from its bootstrap on. */
  lemma {:induction false} OwnerIsFixed(states: seq<Tables>, requests: seq<Request>, i: nat, j: nat, tenant: Uuid)
    requires IsRun(states, requests) && i <= j < |states|
    ensures OneOwner(states[j], tenant) && OwnersKept(states[i], states[j], tenant)
    decreases j
  {
    if j > 0 {
      OwnerIsFixed(states, requests, if i < j then i else j - 1, j - 1, tenant);
      PerformKeepsOwners(states[j - 1], requests[j - 1], tenant);
    }
  }
}
