/** Every interleaving of store transactions from empty tables, and what holds throughout. */
module AuthorityRuns {
  import opened Results
  import opened AuthorityTables
  import opened Administration
  import opened SessionChains

  datatype AccountRequest =
    | BootstrapTenant(tenant: Uuid, owner: Uuid, domain: string, localpart: string)
    | InviteTo(invite: InviteAccount, id: Uuid)
    | Change(change: ChangeRole)
    | DisableAccount(account: Uuid, permanent: bool)

  datatype FactorRequest =
    | CreatePending(tenant: Uuid, account: Uuid, factor: Uuid)
    | Activate(tenant: Uuid, account: Uuid, factor: Uuid, step: int)
    | Consume(tenant: Uuid, account: Uuid, factor: Uuid, step: int)

  datatype SessionRequest =
    | Create(session: NewSession, now: Instant)
    | RotateCredential(presented: Digest, successor: Successor, now: Instant)
    | Revoke(tenant: Uuid, account: Uuid, family: Uuid, now: Instant)

  datatype GrantRequest =
    | Issue(grant: NewGrant, now: Instant)
    | Redeem(tenant: Uuid, account: Uuid, family: Uuid, target: Digest, digest: Digest, now: Instant)

  datatype LoginRequest =
    | Begin(login: NewLogin, now: Instant)
    | Open(digest: Digest, stage: Stage, binding: Digest, now: Instant)

  datatype Request =
    | OnAccounts(accounts: AccountRequest)
    | OnFactors(factors: FactorRequest)
    | OnSessions(sessions: SessionRequest)
    | OnGrants(grants: GrantRequest)
    | OnLogins(logins: LoginRequest)

  ghost function PerformAccounts(t: Tables, q: AccountRequest): (t': Tables)
    ensures AccountsOnly(t, t')
  {
    match q
    case BootstrapTenant(tenant, owner, domain, localpart) => Bootstrap(t, tenant, owner, domain, localpart).tables
    case InviteTo(invite, id) => Invite(t, invite, id).tables
    case Change(change) => ApplyRole(t, change).tables
    case DisableAccount(account, permanent) => Disable(t, account, permanent).tables
  }

  ghost function PerformFactors(t: Tables, q: FactorRequest): (t': Tables)
    ensures FactorsOnly(t, t')
  {
    match q
    case CreatePending(tenant, account, factor) => CreatePendingFactor(t, tenant, account, factor).tables
    case Activate(tenant, account, factor, step) => ActivateFactor(t, tenant, account, factor, step).tables
    case Consume(tenant, account, factor, step) => ConsumeStep(t, tenant, account, factor, step).tables
  }

  ghost function PerformSessions(t: Tables, q: SessionRequest): (t': Tables)
    ensures SessionsOnly(t, t')
  {
    match q
    case Create(session, now) => CreateSession(t, session, now).tables
    case RotateCredential(presented, successor, now) => Rotate(t, presented, successor, now).tables
    case Revoke(tenant, account, family, now) => RevokeFamily(t, tenant, account, family, now).tables
  }

  ghost function PerformGrants(t: Tables, q: GrantRequest): (t': Tables)
    ensures GrantsOnly(t, t')
  {
    match q
    case Issue(grant, now) => CreateGrant(t, grant, now).tables
    case Redeem(tenant, account, family, target, digest, now) =>
      ConsumeGrant(t, tenant, account, family, target, digest, now).tables
  }

  ghost function PerformLogins(t: Tables, q: LoginRequest): (t': Tables)
    ensures LoginsOnly(t, t')
  {
    match q
    case Begin(login, now) => CreateLogin(t, login, now).tables
    case Open(digest, stage, binding, now) => ConsumeLogin(t, digest, stage, binding, now).tables
  }

  ghost function Perform(t: Tables, r: Request): Tables {
    match r
    case OnAccounts(q) => PerformAccounts(t, q)
    case OnFactors(q) => PerformFactors(t, q)
    case OnSessions(q) => PerformSessions(t, q)
    case OnGrants(q) => PerformGrants(t, q)
    case OnLogins(q) => PerformLogins(t, q)
  }

  lemma RedeemRequest(t: Tables, tenant: Uuid, account: Uuid, family: Uuid, target: Digest, digest: Digest, now: Instant)
    ensures Perform(t, OnGrants(Redeem(tenant, account, family, target, digest, now)))
         == ConsumeGrant(t, tenant, account, family, target, digest, now).tables
  {
  }

  ghost predicate IsRun(states: seq<Tables>, requests: seq<Request>) {
    && |states| == |requests| + 1
    && states[0] == EMPTY
    && forall i | 0 <= i < |requests| :: states[i + 1] == Perform(states[i], requests[i])
  }

  // ---- Accounts and sessions ----

  lemma PerformKeepsAccounts(t: Tables, r: Request)
    ensures AccountsPersist(t.accounts, Perform(t, r).accounts)
  {
  }

  lemma SessionsFrame(t: Tables, t': Tables)
    requires SessionsInv(t) && AccountsPersist(t.accounts, t'.accounts)
    requires t'.families == t.families && t'.credentials == t.credentials && t'.sessions == t.sessions
    ensures SessionsInv(t')
  {
  }

  lemma PerformSessionsKeeps(t: Tables, q: SessionRequest)
    requires SessionsInv(t)
    ensures SessionsInv(PerformSessions(t, q))
  {
    match q
    case Create(session, now) => CreateKeepsSessions(t, session, now);
    case RotateCredential(presented, successor, now) => RotateKeepsSessions(t, presented, successor, now);
    case Revoke(tenant, account, family, now) => RevokeKeepsSessions(t, tenant, account, family, now);
  }

  lemma PerformKeepsSessions(t: Tables, r: Request)
    requires SessionsInv(t)
    ensures SessionsInv(Perform(t, r))
  {
    if r.OnSessions? {
      PerformSessionsKeeps(t, r.sessions);
    } else {
      PerformKeepsAccounts(t, r);
      SessionsFrame(t, Perform(t, r));
    }
  }

  // ---- Factors ----

  function ActiveFactors(factors: map<Uuid, Factor>, account: Uuid): set<Uuid> {
    set f | f in factors && factors[f].account == account && factors[f].status == ActiveFactor
  }

  predicate OwnedBy(accounts: map<Uuid, Account>, row: Factor) {
    row.account in accounts && accounts[row.account].tenant == row.tenant
  }

  /** Factors belong to existing accounts, and only active ones have an accepted step. */
  ghost predicate FactorsOwned(accounts: map<Uuid, Account>, factors: map<Uuid, Factor>) {
    forall f | f in factors ::
      OwnedBy(accounts, factors[f]) && (factors[f].status == ActiveFactor <==> factors[f].lastStep.Some?)
  }

  /** An active account has exactly one active factor, an enrolling one none, a disabled one at most one. */
  ghost predicate FactorCount(state: AccountState, active: set<Uuid>) {
    match state
    case Active => |active| == 1
    case MfaEnrollmentRequired => active == {}
    case _ => |active| <= 1
  }

  ghost predicate FactorsCounted(accounts: map<Uuid, Account>, factors: map<Uuid, Factor>) {
    forall a | a in accounts :: FactorCount(accounts[a].state, ActiveFactors(factors, a))
  }

  ghost predicate FactorsInv(t: Tables) {
    FactorsOwned(t.accounts, t.factors) && FactorsCounted(t.accounts, t.factors)
  }

  /** Writing one factor row changes the active factors of its owner by at most that row, and of nobody else. */
  lemma FactorWritten(factors: map<Uuid, Factor>, f: Uuid, row: Factor, a: Uuid)
    requires f in factors ==> factors[f].account == row.account
    ensures ActiveFactors(factors[f := row], a)
         == if a != row.account then ActiveFactors(factors, a)
            else if row.status == ActiveFactor then ActiveFactors(factors, a) + {f}
            else ActiveFactors(factors, a) - {f}
  {
  }

  /** Writing a factor row and its owner's state keeps the counts if the owner's own count is right. */
  lemma WriteKeepsCounts(accounts: map<Uuid, Account>, factors: map<Uuid, Factor>, f: Uuid, row: Factor, state: AccountState)
    requires FactorsCounted(accounts, factors) && row.account in accounts
    requires f in factors ==> factors[f].account == row.account
    requires FactorCount(state, ActiveFactors(factors[f := row], row.account))
    ensures FactorsCounted(accounts[row.account := accounts[row.account].(state := state)], factors[f := row])
  {
    var accounts' := accounts[row.account := accounts[row.account].(state := state)];
    forall a | a in accounts'
      ensures FactorCount(accounts'[a].state, ActiveFactors(factors[f := row], a))
    {
      FactorWritten(factors, f, row, a);
    }
  }

  lemma PendingKeepsFactors(t: Tables, tenant: Uuid, account: Uuid, factor: Uuid)
    requires FactorsInv(t)
    ensures FactorsInv(CreatePendingFactor(t, tenant, account, factor).tables)
  {
    if CreatePendingFactor(t, tenant, account, factor).answer.Ok? {
      var row := Factor(tenant, account, PendingFactor, None);
      FactorWritten(t.factors, factor, row, account);
      assert factor !in ActiveFactors(t.factors, account);
      WriteKeepsCounts(t.accounts, t.factors, factor, row, t.accounts[account].state);
      assert t.accounts == t.accounts[account := t.accounts[account]];
    }
  }

  lemma ActivateKeepsFactors(t: Tables, tenant: Uuid, account: Uuid, factor: Uuid, step: int)
    requires FactorsInv(t)
    ensures FactorsInv(ActivateFactor(t, tenant, account, factor, step).tables)
  {
    if ActivateFactor(t, tenant, account, factor, step).answer.Ok? {
      var row := Factor(tenant, account, ActiveFactor, Some(step));
      FactorWritten(t.factors, factor, row, account);
      WriteKeepsCounts(t.accounts, t.factors, factor, row, Active);
    }
  }

  lemma ConsumeKeepsFactors(t: Tables, tenant: Uuid, account: Uuid, factor: Uuid, step: int)
    requires FactorsInv(t)
    ensures FactorsInv(ConsumeStep(t, tenant, account, factor, step).tables)
  {
    if ConsumeStep(t, tenant, account, factor, step).answer.Ok? {
      var row := t.factors[factor].(lastStep := Some(step));
      FactorWritten(t.factors, factor, row, account);
      assert factor in ActiveFactors(t.factors, account);
      assert ActiveFactors(t.factors, account) + {factor} == ActiveFactors(t.factors, account);
      WriteKeepsCounts(t.accounts, t.factors, factor, row, t.accounts[account].state);
      assert t.accounts == t.accounts[account := t.accounts[account]];
    }
  }

  /** A new account has no factors, and disabling one keeps the count in bounds. */
  ghost predicate AccountWrite(before: map<Uuid, Account>, after: map<Uuid, Account>, id: Uuid) {
    && id in after && after == before[id := after[id]]
    && (if id in before then after[id].state in {Suspended, Deactivated} && after[id].tenant == before[id].tenant
        else after[id].state == MfaEnrollmentRequired)
  }

  lemma AccountWriteKeepsFactors(before: map<Uuid, Account>, after: map<Uuid, Account>, factors: map<Uuid, Factor>, id: Uuid)
    requires FactorsOwned(before, factors) && FactorsCounted(before, factors) && AccountWrite(before, after, id)
    ensures FactorsOwned(after, factors) && FactorsCounted(after, factors)
  {
    if id !in before {
      assert ActiveFactors(factors, id) == {};
    }
  }

  lemma BootstrapWrites(t: Tables, tenant: Uuid, owner: Uuid, domain: string, localpart: string)
    ensures var after := Bootstrap(t, tenant, owner, domain, localpart).tables.accounts;
            after == t.accounts || AccountWrite(t.accounts, after, owner)
  {
  }

  lemma InviteWrites(t: Tables, invite: InviteAccount, id: Uuid)
    ensures var after := Invite(t, invite, id).tables.accounts; after == t.accounts || AccountWrite(t.accounts, after, id)
  {
  }

  lemma DisableWrites(t: Tables, account: Uuid, permanent: bool)
    ensures var after := Disable(t, account, permanent).tables.accounts; after == t.accounts || AccountWrite(t.accounts, after, account)
  {
  }

  lemma ChangeWrites(t: Tables, change: ChangeRole)
    ensures ApplyRole(t, change).tables.accounts == t.accounts
  {
  }

  lemma AccountWrites(t: Tables, q: AccountRequest)
    ensures var after := PerformAccounts(t, q).accounts;
            after == t.accounts || exists id :: AccountWrite(t.accounts, after, id)
  {
    match q
    case BootstrapTenant(tenant, owner, domain, localpart) => BootstrapWrites(t, tenant, owner, domain, localpart);
    case InviteTo(invite, id) => InviteWrites(t, invite, id);
    case DisableAccount(account, permanent) => DisableWrites(t, account, permanent);
    case Change(change) => ChangeWrites(t, change);
  }

  lemma AccountsKeepFactors(t: Tables, q: AccountRequest)
    requires FactorsInv(t)
    ensures FactorsInv(PerformAccounts(t, q))
  {
    AccountWrites(t, q);
    var after := PerformAccounts(t, q).accounts;
    if after != t.accounts {
      var id :| AccountWrite(t.accounts, after, id);
      AccountWriteKeepsFactors(t.accounts, after, t.factors, id);
    }
  }

  lemma PerformFactorsKeeps(t: Tables, q: FactorRequest)
    requires FactorsInv(t)
    ensures FactorsInv(PerformFactors(t, q))
  {
    match q
    case CreatePending(tenant, account, factor) => PendingKeepsFactors(t, tenant, account, factor);
    case Activate(tenant, account, factor, step) => ActivateKeepsFactors(t, tenant, account, factor, step);
    case Consume(tenant, account, factor, step) => ConsumeKeepsFactors(t, tenant, account, factor, step);
  }

  lemma PerformKeepsFactors(t: Tables, r: Request)
    requires FactorsInv(t)
    ensures FactorsInv(Perform(t, r))
  {
    match r
    case OnAccounts(q) => AccountsKeepFactors(t, q);
    case OnFactors(q) => PerformFactorsKeeps(t, q);
    case _ =>
  }
}
