/** The Fabric authority's tables and each store transaction as one step over them. */
module AuthorityTables {
  import opened Results

  type Uuid = x: int | 0 <= x < 0x1_0000_0000_0000_0000_0000_0000_0000_0000
  type Digest = int
  /** Nanoseconds since the Unix epoch. */
  type Instant = int

  datatype AccountState = Active | MfaEnrollmentRequired | Suspended | Deactivated
  datatype Role = Owner | Admin | Operator | Auditor | Member
  datatype FactorStatus = PendingFactor | ActiveFactor
  datatype Stage = MfaEnrollment | MfaChallenge | SessionIssuance | Consumed

  datatype Account = Account(tenant: Uuid, localpart: string, state: AccountState)
  datatype Factor = Factor(tenant: Uuid, account: Uuid, status: FactorStatus, lastStep: Option<int>)
  datatype Family = Family(tenant: Uuid, account: Uuid, revokedAt: Option<Instant>)
  datatype Credential = Credential(
    tenant: Uuid, account: Uuid, family: Uuid, digest: Digest, expiresAt: Instant,
    consumedAt: Option<Instant>, replacedBy: Option<Uuid>)
  datatype Session = Session(
    tenant: Uuid, account: Uuid, family: Uuid, digest: Digest, expiresAt: Instant, revokedAt: Option<Instant>)
  datatype Login = Login(
    tenant: Uuid, account: Uuid, digest: Digest, stage: Stage, binding: Digest, factor: Option<Uuid>,
    expiresAt: Instant, consumedAt: Option<Instant>)
  datatype Grant = Grant(
    tenant: Uuid, account: Uuid, family: Uuid, target: Digest, digest: Digest, expiresAt: Instant,
    consumedAt: Option<Instant>)

  datatype Tables = Tables(
    tenants: map<Uuid, string>,
    accounts: map<Uuid, Account>,
    roles: set<(Uuid, Uuid, Role)>,
    factors: map<Uuid, Factor>,
    families: map<Uuid, Family>,
    credentials: map<Uuid, Credential>,
    sessions: map<Uuid, Session>,
    logins: map<Uuid, Login>,
    grants: map<Uuid, Grant>)
  {
    /** The account exists in this tenant. */
    predicate Owns(tenant: Uuid, account: Uuid) {
      account in accounts && accounts[account].tenant == tenant
    }

    predicate OwnsIn(tenant: Uuid, account: Uuid, state: AccountState) {
      Owns(tenant, account) && accounts[account].state == state
    }
  }

  const EMPTY := Tables(map[], map[], {}, map[], map[], map[], map[], map[], map[])

  datatype StoreError =
    | Database
    | TargetNotFoundOrUnchanged
    | InvalidExpiry
    | InvalidOrExpiredLoginTransaction
    | Refused

  /** What a transaction leaves behind and what it answers; a failed transaction is rolled back. */
  datatype Done<T> = Done(tables: Tables, answer: Result<T, StoreError>)

  function Failed<T>(t: Tables, e: StoreError): Done<T> {
    Done(t, Err(e))
  }

  // ---- What no transaction undoes ----

  /** Accounts are never deleted and never change tenant. */
  ghost predicate AccountsPersist(before: map<Uuid, Account>, after: map<Uuid, Account>) {
    forall a | a in before :: a in after && after[a].tenant == before[a].tenant
  }

  /** An active factor stays active and its last accepted step never falls. */
  ghost predicate StaysActive(before: Factor, after: Factor) {
    before.status == ActiveFactor ==>
      && after.status == ActiveFactor
      && (before.lastStep.Some? ==> after.lastStep.Some? && before.lastStep.value <= after.lastStep.value)
  }

  /** Factors keep their owner, and active ones stay active. */
  ghost predicate FactorsPersist(before: map<Uuid, Factor>, after: map<Uuid, Factor>) {
    forall f | f in before ::
      && f in after && after[f].tenant == before[f].tenant && after[f].account == before[f].account
      && StaysActive(before[f], after[f])
  }

  /** Families keep their owner; a revoked one never changes again. */
  ghost predicate FamiliesPersist(before: map<Uuid, Family>, after: map<Uuid, Family>) {
    forall f | f in before ::
      && f in after && after[f].tenant == before[f].tenant && after[f].account == before[f].account
      && (before[f].revokedAt.Some? ==> after[f] == before[f])
  }

  /** A credential keeps everything but its consumption; a consumed one never changes again. */
  ghost predicate CredentialsPersist(before: map<Uuid, Credential>, after: map<Uuid, Credential>) {
    forall c | c in before ::
      && c in after && after[c].(consumedAt := before[c].consumedAt, replacedBy := before[c].replacedBy) == before[c]
      && (before[c].consumedAt.Some? ==> after[c] == before[c])
  }

  /** An access session keeps everything but its revocation; a revoked one never changes again. */
  ghost predicate SessionsPersist(before: map<Uuid, Session>, after: map<Uuid, Session>) {
    forall s | s in before ::
      && s in after && after[s].(revokedAt := before[s].revokedAt) == before[s]
      && (before[s].revokedAt.Some? ==> after[s] == before[s])
  }

  /** A grant keeps what it is bound to; a consumed one never changes again. */
  ghost predicate GrantsPersist(before: map<Uuid, Grant>, after: map<Uuid, Grant>) {
    forall g | g in before ::
      && g in after && after[g].(consumedAt := before[g].consumedAt) == before[g]
      && (before[g].consumedAt.Some? ==> after[g] == before[g])
  }

  /** A session transaction touches its three tables only, and undoes nothing in them. */
  ghost predicate SessionsOnly(t: Tables, t': Tables) {
    && t' == t.(families := t'.families, credentials := t'.credentials, sessions := t'.sessions)
    && FamiliesPersist(t.families, t'.families) && CredentialsPersist(t.credentials, t'.credentials)
    && SessionsPersist(t.sessions, t'.sessions)
  }

  ghost predicate FactorsOnly(t: Tables, t': Tables) {
    && t' == t.(accounts := t'.accounts, factors := t'.factors)
    && AccountsPersist(t.accounts, t'.accounts) && FactorsPersist(t.factors, t'.factors)
  }

  ghost predicate AccountsOnly(t: Tables, t': Tables) {
    && t' == t.(tenants := t'.tenants, accounts := t'.accounts, roles := t'.roles)
    && AccountsPersist(t.accounts, t'.accounts)
  }

  // ---- Sessions ----

  datatype NewSession = NewSession(
    tenant: Uuid, account: Uuid, family: Uuid, credential: Uuid, session: Uuid,
    refreshDigest: Digest, accessDigest: Digest, refreshExpires: Instant, accessExpires: Instant)

  predicate CredentialFree(t: Tables, id: Uuid, digest: Digest) {
    id !in t.credentials && forall c | c in t.credentials :: t.credentials[c].digest != digest
  }

  predicate SessionFree(t: Tables, id: Uuid, digest: Digest) {
    id !in t.sessions && forall s | s in t.sessions :: t.sessions[s].digest != digest
  }

  function CreateSession(t: Tables, n: NewSession, now: Instant): (r: Done<Uuid>)
    ensures SessionsOnly(t, r.tables)
  {
    if n.refreshExpires <= now || n.accessExpires <= now then Failed(t, InvalidExpiry)
    else if !t.OwnsIn(n.tenant, n.account, Active) then Failed(t, TargetNotFoundOrUnchanged)
    else if n.family in t.families || !CredentialFree(t, n.credential, n.refreshDigest)
            || !SessionFree(t, n.session, n.accessDigest) then Failed(t, Database)
    else Done(
      t.(families := t.families[n.family := Family(n.tenant, n.account, None)],
         credentials := t.credentials[n.credential :=
           Credential(n.tenant, n.account, n.family, n.refreshDigest, n.refreshExpires, None, None)],
         sessions := t.sessions[n.session :=
           Session(n.tenant, n.account, n.family, n.accessDigest, n.accessExpires, None)]),
      Ok(n.family))
  }

  function RevokeSessions(sessions: map<Uuid, Session>, family: Uuid, now: Instant): map<Uuid, Session> {
    map s | s in sessions ::
      if sessions[s].family == family && sessions[s].revokedAt.None? then sessions[s].(revokedAt := Some(now))
      else sessions[s]
  }

  /** Whether the family row was found live and is now revoked. */
  function RevokeFamily(t: Tables, tenant: Uuid, account: Uuid, family: Uuid, now: Instant): (r: Done<bool>)
    ensures SessionsOnly(t, r.tables)
  {
    if family in t.families && t.families[family] == Family(tenant, account, None) then
      Done(t.(families := t.families[family := Family(tenant, account, Some(now))],
              sessions := RevokeSessions(t.sessions, family, now)), Ok(true))
    else Done(t, Ok(false))
  }

  /** What a rotation reports: the owner, the family, and the successor credential and access session. */
  datatype RotationRecord = RotationRecord(
    tenant: Uuid, account: Uuid, family: Uuid, credential: Uuid, expires: Instant, session: Uuid, accessExpires: Instant)

  datatype Rotation = Rotated(record: RotationRecord) | ReuseDetected | Denied

  datatype Successor = Successor(
    credential: Uuid, session: Uuid, digest: Digest, accessDigest: Digest, expires: Instant, accessExpires: Instant)

  ghost function CredentialBy(t: Tables, digest: Digest): (r: Option<Uuid>)
    ensures r.Some? ==> r.value in t.credentials && t.credentials[r.value].digest == digest
  {
    if exists c :: c in t.credentials && t.credentials[c].digest == digest then
      var c :| c in t.credentials && t.credentials[c].digest == digest; Some(c)
    else None
  }

  /** The family is there and not revoked. */
  predicate Live(t: Tables, family: Uuid) {
    family in t.families && t.families[family].revokedAt.None?
  }

  /** Between the two states the unspent credential of a live family was spent and replaced by the record's. */
  predicate Spends(t: Tables, t': Tables, credential: Uuid, record: RotationRecord) {
    && credential in t.credentials && credential in t'.credentials
    && t.credentials[credential].family == record.family && Live(t, record.family)
    && t.credentials[credential].consumedAt.None? && t'.credentials[credential].consumedAt.Some?
    && t'.credentials[credential].replacedBy == Some(record.credential)
  }

  /** The record is the successor's, and its credential and access session are stored, unspent and unrevoked. */
  predicate Issues(t': Tables, n: Successor, record: RotationRecord) {
    && record.credential == n.credential && record.session == n.session
    && record.expires == n.expires && record.accessExpires == n.accessExpires
    && record.credential in t'.credentials && record.session in t'.sessions
    && t'.credentials[record.credential]
       == Credential(record.tenant, record.account, record.family, n.digest, record.expires, None, None)
    && t'.sessions[record.session]
       == Session(record.tenant, record.account, record.family, n.accessDigest, record.accessExpires, None)
  }

  function RotateLocked(t: Tables, id: Uuid, n: Successor, now: Instant): (r: Done<Rotation>)
    requires id in t.credentials && t.credentials[id].family in t.families
    requires t.families[t.credentials[id].family].revokedAt.None?
    ensures SessionsOnly(t, r.tables)
    ensures match r.answer
            case Ok(Rotated(record)) => Spends(t, r.tables, id, record) && Issues(r.tables, n, record)
            case Ok(ReuseDetected) => false
            case _ => r.tables == t
  {
    var c := t.credentials[id];
    if c.consumedAt.Some? then Done(t, Ok(Denied))
    else if !CredentialFree(t, n.credential, n.digest) || !SessionFree(t, n.session, n.accessDigest) then Failed(t, Database)
    else Done(
      t.(credentials := t.credentials[id := c.(consumedAt := Some(now), replacedBy := Some(n.credential))]
           [n.credential := Credential(c.tenant, c.account, c.family, n.digest, n.expires, None, None)],
         sessions := RevokeSessions(t.sessions, c.family, now)
           [n.session := Session(c.tenant, c.account, c.family, n.accessDigest, n.accessExpires, None)]),
      Ok(Rotated(RotationRecord(c.tenant, c.account, c.family, n.credential, n.expires, n.session, n.accessExpires))))
  }

  ghost function Rotate(t: Tables, presented: Digest, n: Successor, now: Instant): (r: Done<Rotation>)
    ensures SessionsOnly(t, r.tables)
    ensures match r.answer
            case Ok(Rotated(record)) =>
              && CredentialBy(t, presented).Some? && Spends(t, r.tables, CredentialBy(t, presented).value, record)
              && Issues(r.tables, n, record)
            case Ok(ReuseDetected) =>
              CredentialBy(t, presented).Some? && Live(t, t.credentials[CredentialBy(t, presented).value].family)
            case _ => r.tables == t
  {
    if n.expires <= now || n.accessExpires <= now then Failed(t, InvalidExpiry)
    else match CredentialBy(t, presented)
      case None => Done(t, Ok(Denied))
      case Some(id) =>
        var c := t.credentials[id];
        if c.family !in t.families || !t.Owns(c.tenant, c.account) then Done(t, Ok(Denied))
        else if c.consumedAt.Some? then
          if t.families[c.family].revokedAt.None? then
            Done(RevokeFamily(t, c.tenant, c.account, c.family, now).tables, Ok(ReuseDetected))
          else Done(t, Ok(Denied))
        else if t.families[c.family].revokedAt.Some? || c.expiresAt <= now
                || !t.OwnsIn(c.tenant, c.account, Active) then Done(t, Ok(Denied))
        else RotateLocked(t, id, n, now)
  }

  /** A session row that authenticates a request at `now`. */
  predicate Authenticates(t: Tables, id: Uuid, now: Instant) {
    && id in t.sessions
    && var s := t.sessions[id];
       && s.revokedAt.None? && s.expiresAt > now
       && s.family in t.families && t.families[s.family].revokedAt.None?
       && t.OwnsIn(s.tenant, s.account, Active)
  }

  // ---- Factors ----

  function CreatePendingFactor(t: Tables, tenant: Uuid, account: Uuid, factor: Uuid): (r: Done<()>)
    ensures FactorsOnly(t, r.tables)
  {
    if !t.Owns(tenant, account) then Failed(t, TargetNotFoundOrUnchanged)
    else if factor in t.factors then Failed(t, Database)
    else Done(t.(factors := t.factors[factor := Factor(tenant, account, PendingFactor, None)]), Ok(()))
  }

  predicate HasFactor(t: Tables, factor: Uuid, tenant: Uuid, account: Uuid, status: FactorStatus) {
    && factor in t.factors
    && t.factors[factor].status == status
    && t.factors[factor].tenant == tenant && t.factors[factor].account == account
  }

  /** The factor is active for this account, and has accepted this step or a later one. */
  predicate HasAccepted(t: Tables, tenant: Uuid, account: Uuid, factor: Uuid, step: int) {
    && HasFactor(t, factor, tenant, account, ActiveFactor)
    && t.factors[factor].lastStep.Some? && step <= t.factors[factor].lastStep.value
  }

  /** No step from this one on was accepted by the factor before. */
  predicate Unaccepted(t: Tables, factor: Uuid, step: int) {
    && factor in t.factors
    && (t.factors[factor].status == ActiveFactor && t.factors[factor].lastStep.Some? ==> t.factors[factor].lastStep.value < step)
  }

  /** The step is now the factor's last one, and no other factor changed. */
  ghost predicate Records(t: Tables, t': Tables, tenant: Uuid, account: Uuid, factor: Uuid, step: int) {
    && HasAccepted(t', tenant, account, factor, step) && t'.factors[factor].lastStep == Some(step)
    && t'.factors == t.factors[factor := t'.factors[factor]]
  }

  function ActivateFactor(t: Tables, tenant: Uuid, account: Uuid, factor: Uuid, step: int): (r: Done<()>)
    ensures FactorsOnly(t, r.tables)
    ensures if r.answer.Ok? then Unaccepted(t, factor, step) && Records(t, r.tables, tenant, account, factor, step) else r.tables == t
  {
    if !HasFactor(t, factor, tenant, account, PendingFactor) || !t.OwnsIn(tenant, account, MfaEnrollmentRequired) then Failed(t, TargetNotFoundOrUnchanged)
    else if exists f | f in t.factors :: HasFactor(t, f, tenant, account, ActiveFactor) then Failed(t, Database)
    else Done(t.(factors := t.factors[factor := Factor(tenant, account, ActiveFactor, Some(step))],
                 accounts := t.accounts[account := t.accounts[account].(state := Active)]), Ok(()))
  }

  function ConsumeStep(t: Tables, tenant: Uuid, account: Uuid, factor: Uuid, step: int): (r: Done<()>)
    ensures FactorsOnly(t, r.tables)
    ensures if r.answer.Ok? then Unaccepted(t, factor, step) && Records(t, r.tables, tenant, account, factor, step) else r.tables == t
  {
    if HasFactor(t, factor, tenant, account, ActiveFactor)
       && (t.factors[factor].lastStep.None? || t.factors[factor].lastStep.value < step)
       && t.OwnsIn(tenant, account, Active)
    then Done(t.(factors := t.factors[factor := t.factors[factor].(lastStep := Some(step))]), Ok(()))
    else Failed(t, TargetNotFoundOrUnchanged)
  }

  // ---- Step-up grants ----

  datatype NewGrant = NewGrant(
    id: Uuid, tenant: Uuid, account: Uuid, family: Uuid, target: Digest, digest: Digest, expires: Instant)

  ghost predicate GrantsOnly(t: Tables, t': Tables) {
    t' == t.(grants := t'.grants) && GrantsPersist(t.grants, t'.grants)
  }

  function CreateGrant(t: Tables, n: NewGrant, now: Instant): (r: Done<Uuid>)
    ensures GrantsOnly(t, r.tables)
  {
    if n.expires <= now then Failed(t, InvalidExpiry)
    else if n.family !in t.families || t.families[n.family] != Family(n.tenant, n.account, None)
            || !t.OwnsIn(n.tenant, n.account, Active) then Failed(t, TargetNotFoundOrUnchanged)
    else if n.id in t.grants || exists g | g in t.grants :: t.grants[g].digest == n.digest then Failed(t, Database)
    else Done(t.(grants := t.grants[n.id := Grant(n.tenant, n.account, n.family, n.target, n.digest, n.expires, None)]),
              Ok(n.id))
  }

  /** The grant row a presentation matches. */
  predicate Redeems(t: Tables, id: Uuid, tenant: Uuid, account: Uuid, family: Uuid, target: Digest, digest: Digest, now: Instant) {
    && id in t.grants
    && t.grants[id].(expiresAt := now) == Grant(tenant, account, family, target, digest, now, None)
    && t.grants[id].expiresAt > now
    && family in t.families && t.families[family].revokedAt.None?
  }

  ghost function ConsumeGrant(t: Tables, tenant: Uuid, account: Uuid, family: Uuid, target: Digest, digest: Digest, now: Instant)
    : (r: Done<Option<Uuid>>)
    ensures GrantsOnly(t, r.tables)
  {
    if exists g :: Redeems(t, g, tenant, account, family, target, digest, now) then
      var g :| Redeems(t, g, tenant, account, family, target, digest, now);
      Done(t.(grants := t.grants[g := t.grants[g].(consumedAt := Some(now))]), Ok(Some(g)))
    else Done(t, Ok(None))
  }

  // ---- Login transactions ----

  datatype NewLogin = NewLogin(
    id: Uuid, tenant: Uuid, account: Uuid, digest: Digest, stage: Stage, binding: Digest, factor: Option<Uuid>,
    expires: Instant)

  /** A login transaction changes only by being consumed; a consumed one never changes again. */
  ghost predicate LoginsPersist(before: map<Uuid, Login>, after: map<Uuid, Login>) {
    forall l | l in before ::
      && l in after && after[l].(stage := before[l].stage, consumedAt := before[l].consumedAt) == before[l]
      && (after[l].consumedAt.None? ==> after[l] == before[l])
      && (before[l].consumedAt.Some? ==> after[l] == before[l])
  }

  ghost predicate LoginsOnly(t: Tables, t': Tables) {
    t' == t.(logins := t'.logins) && LoginsPersist(t.logins, t'.logins)
  }

  function CreateLogin(t: Tables, n: NewLogin, now: Instant): (r: Done<()>)
    ensures LoginsOnly(t, r.tables)
  {
    if n.expires <= now then Failed(t, InvalidExpiry)
    else if !t.Owns(n.tenant, n.account) then Failed(t, TargetNotFoundOrUnchanged)
    else if n.id in t.logins || exists l | l in t.logins :: t.logins[l].digest == n.digest then Failed(t, Database)
    else Done(t.(logins := t.logins[n.id :=
                Login(n.tenant, n.account, n.digest, n.stage, n.binding, n.factor, n.expires, None)]), Ok(()))
  }

  predicate Opens(t: Tables, id: Uuid, digest: Digest, stage: Stage, binding: Digest, now: Instant) {
    && id in t.logins
    && var l := t.logins[id];
       l.digest == digest && l.binding == binding && l.stage == stage && l.consumedAt.None? && l.expiresAt > now
  }

  /** The transaction that was open and is now consumed. */
  datatype OpenedLogin = OpenedLogin(id: Uuid, row: Login)

  ghost function ConsumeLogin(t: Tables, digest: Digest, stage: Stage, binding: Digest, now: Instant): (r: Done<OpenedLogin>)
    ensures LoginsOnly(t, r.tables)
    ensures match r.answer
            case Ok(l) =>
              && Opens(t, l.id, digest, stage, binding, now) && l.row == t.logins[l.id]
              && r.tables.logins == t.logins[l.id := l.row.(stage := Consumed, consumedAt := Some(now))]
            case Err(_) => r.tables == t
  {
    if exists l :: Opens(t, l, digest, stage, binding, now) then
      var l :| Opens(t, l, digest, stage, binding, now);
      Done(t.(logins := t.logins[l := t.logins[l].(stage := Consumed, consumedAt := Some(now))]), Ok(OpenedLogin(l, t.logins[l])))
    else Failed(t, InvalidOrExpiredLoginTransaction)
  }
}
