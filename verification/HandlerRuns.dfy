/** Every privilege the handlers hand out is paid for: one accepted code, one session or grant; one grant, one role change. */
module HandlerRuns {
  import opened Results
  import opened AuthorityTables
  import opened Administration
  import opened AuthorityRuns
  import opened AuthorityTheorems
  import opened Totp
  import opened Handlers

  // ---- The tables under the handlers ----

  ghost predicate Sound(t: Tables) {
    Inv(t) && forall tenant :: OneOwner(t, tenant)
  }

  ghost predicate Later(t: Tables, t': Tables) {
    Persists(t, t') && forall tenant :: OwnersKept(t, t', tenant)
  }

  lemma PerformEvolves(t: Tables, r: Request)
    requires Sound(t)
    ensures Sound(Perform(t, r)) && Later(t, Perform(t, r))
  {
    PerformKeepsSessions(t, r);
    PerformKeepsFactors(t, r);
    PerformPersists(t, r);
    forall tenant
      ensures OneOwner(Perform(t, r), tenant) && OwnersKept(t, Perform(t, r), tenant)
    {
      PerformKeepsOwners(t, r, tenant);
    }
  }

  lemma Evolves(t: Tables, r: Request, t': Tables)
    requires Sound(t) && t' == Perform(t, r)
    ensures Sound(t') && Later(t, t')
  {
    PerformEvolves(t, r);
  }

  /** The later tables are sound too, and undo nothing. */
  ghost predicate Evolved(t: Tables, t': Tables) {
    Sound(t') && Later(t, t')
  }

  lemma SameEvolves(t: Tables, t': Tables)
    requires Sound(t) && t' == t
    ensures Evolved(t, t')
  {
    PersistsItself(t);
  }

  lemma PersistsItself(t: Tables)
    ensures Persists(t, t)
  {
  }

  lemma LoginEvolves(t: Tables, digest: Digest, stage: Stage, binding: Digest, now: Instant, t': Tables)
    requires Sound(t) && t' == ConsumeLogin(t, digest, stage, binding, now).tables
    ensures Evolved(t, t')
  {
    Evolves(t, OnLogins(Open(digest, stage, binding, now)), t');
  }

  lemma OpenedEvolves(t: Tables, at: nat, o: Opening, t': Tables)
    requires Sound(t) && t' == Opened(t, at, o).tables
    ensures Evolved(t, t')
  {
    match o
    case OpenChallenge(digest, binding, now) => LoginEvolves(t, digest, MfaChallenge, binding, now, t');
    case OpenEnrolment(digest, binding, now) => LoginEvolves(t, digest, MfaEnrollment, binding, now, t');
    case SignIn(_, _) => SameEvolves(t, t');
  }

  lemma ProvedEvolves(t: Tables, at: nat, th: Thread, t': Tables)
    requires Sound(t) && th.Checked? && t' == ProvedStep(t, at, th).tables
    ensures Evolved(t, t')
  {
    var q := if th.purpose.ForEnrolment? then Activate(th.tenant, th.account, th.factor, th.step)
             else Consume(th.tenant, th.account, th.factor, th.step);
    Evolves(t, OnFactors(q), t');
  }

  lemma SessionEvolves(t: Tables, th: Thread, n: NewSession, now: Instant, t': Tables)
    requires Sound(t) && th.Cleared? && !th.purpose.ForStepUp? && t' == IssuedSession(t, th, n, now).tables
    ensures Evolved(t, t')
  {
    Evolves(t, OnSessions(Create(n.(tenant := th.tenant, account := th.account), now)), t');
  }

  lemma IssueEvolves(t: Tables, n: NewGrant, now: Instant, t': Tables)
    requires Sound(t) && t' == CreateGrant(t, n, now).tables
    ensures Evolved(t, t')
  {
    Evolves(t, OnGrants(Issue(n, now)), t');
  }

  lemma GrantEvolves(env: Env, t: Tables, th: Thread, n: NewGrant, now: Instant, t': Tables)
    requires Sound(t) && th.Cleared? && th.purpose.ForStepUp? && t' == IssuedGrant(env, t, th, n, now).tables
    ensures Evolved(t, t')
  {
    var bound := n.(tenant := th.tenant, account := th.account, family := th.purpose.family,
                    target := env.Binding(th.purpose.target));
    IssueEvolves(t, bound, now, t');
  }

  lemma RedeemEvolves(t: Tables, tenant: Uuid, account: Uuid, family: Uuid, target: Digest, digest: Digest, now: Instant, t': Tables)
    requires Sound(t) && t' == ConsumeGrant(t, tenant, account, family, target, digest, now).tables
    ensures Evolved(t, t')
  {
    RedeemRequest(t, tenant, account, family, target, digest, now);
    Evolves(t, OnGrants(Redeem(tenant, account, family, target, digest, now)), t');
  }

  lemma RedemptionEvolves(env: Env, t: Tables, th: Thread, digest: Digest, now: Instant, t': Tables)
    requires Sound(t) && th.Commanded? && t' == RedeemedGrant(env, t, th, digest, now).tables
    ensures Evolved(t, t')
  {
    RedeemEvolves(t, th.command.tenant, th.command.actor.account, th.family, env.Binding(TargetOf(th.command)), digest, now, t');
  }

  lemma CommitEvolves(t: Tables, th: Thread, t': Tables)
    requires Sound(t) && th.Redeemed? && t' == CommittedRole(t, th).tables
    ensures Evolved(t, t')
  {
    Evolves(t, OnAccounts(Change(th.command)), t');
  }

  lemma MovedEvolves(env: Env, t: Tables, at: nat, th: Thread, m: Move, t': Tables)
    requires Sound(t) && t' == Moved(env, t, at, th, m).tables
    ensures Evolved(t, t')
  {
    if th.Checked? && m.Prove? {
      ProvedEvolves(t, at, th, t');
    } else if th.Cleared? && m.IssueSession? && !th.purpose.ForStepUp? {
      SessionEvolves(t, th, m.session, m.now, t');
    } else if th.Cleared? && m.IssueGrant? && th.purpose.ForStepUp? {
      GrantEvolves(env, t, th, m.grant, m.now, t');
    } else if th.Commanded? && m.RedeemWith? {
      RedemptionEvolves(env, t, th, m.digest, m.now, t');
    } else if th.Redeemed? && m.Commit? {
      CommitEvolves(t, th, t');
    } else {
      SameEvolves(t, t');
    }
  }

  // ---- What a thread and a log entry stand for ----

  ghost predicate IsOwner(t: Tables, tenant: Uuid, account: Uuid) {
    (tenant, account, Owner) in Owners(t.roles, tenant)
  }

  /** The actor of a validated command is an owner of its tenant. */
  ghost predicate Authorised(t: Tables, command: ChangeRole) {
    command.Valid() && IsOwner(t, command.tenant, command.actor.account)
  }

  /** A consumed grant bound to exactly this command, actor and session family. */
  ghost predicate PaidBy(env: Env, t: Tables, grant: Uuid, command: ChangeRole, family: Uuid) {
    && grant in t.grants
    && var row := t.grants[grant];
       && row.consumedAt.Some? && row.tenant == command.tenant && row.account == command.actor.account
       && row.family == family && row.target == env.Binding(TargetOf(command))
  }

  predicate InWindow(step: int, seconds: int) {
    step == CurrentStep(seconds) || step == CurrentStep(seconds) - 1
  }

  /** The log entry is a code accepted for this account. */
  predicate ProofAt(log: seq<Entry>, proof: nat, tenant: Uuid, account: Uuid) {
    proof < |log| && log[proof].Proof? && log[proof].tenant == tenant && log[proof].account == account
  }

  /** The log entry is a login transaction of this account, consumed at this stage. */
  predicate OpenedAt(log: seq<Entry>, opening: nat, stage: Stage, tenant: Uuid, account: Uuid) {
    && opening < |log| && log[opening].LoginOpened?
    && log[opening].stage == stage && log[opening].tenant == tenant && log[opening].account == account
  }

  /** A login rests on a challenge transaction, an enrolment on an enrolment one, a step-up on being an owner. */
  ghost predicate Entitled(t: Tables, log: seq<Entry>, tenant: Uuid, account: Uuid, purpose: Purpose) {
    match purpose
    case ForLogin(opening) => OpenedAt(log, opening, MfaChallenge, tenant, account)
    case ForEnrolment(opening, _) => OpenedAt(log, opening, MfaEnrollment, tenant, account)
    case ForStepUp(_, _) => IsOwner(t, tenant, account)
  }

  ghost predicate ThreadInv(env: Env, t: Tables, log: seq<Entry>, th: Thread) {
    match th
    case Begun(tenant, account, purpose) => Entitled(t, log, tenant, account, purpose)
    case Checked(tenant, account, purpose, factor, step, seconds, code) =>
      Entitled(t, log, tenant, account, purpose) && InWindow(step, seconds) && code == env.code(factor, step)
    case Proved(tenant, account, purpose, proof) =>
      Entitled(t, log, tenant, account, purpose) && ProofAt(log, proof, tenant, account)
    case Cleared(tenant, account, purpose, proof) =>
      Entitled(t, log, tenant, account, purpose) && ProofAt(log, proof, tenant, account)
    case Commanded(command, _) => Authorised(t, command)
    case Redeemed(command, family, grant) => Authorised(t, command) && PaidBy(env, t, grant, command, family)
    case _ => true
  }

  /** The two log entries are a login transaction and a code of this account. */
  predicate LoggedIn(log: seq<Entry>, opening: nat, proof: nat, tenant: Uuid, account: Uuid) {
    && (OpenedAt(log, opening, MfaChallenge, tenant, account) || OpenedAt(log, opening, MfaEnrollment, tenant, account))
    && ProofAt(log, proof, tenant, account)
  }

  ghost predicate EntryInv(env: Env, t: Tables, log: seq<Entry>, entry: Entry) {
    match entry
    case LoginOpened(login, _, _, _) => login in t.logins && t.logins[login].consumedAt.Some?
    case Proof(tenant, account, factor, step, seconds, code) =>
      HasAccepted(t, tenant, account, factor, step) && InWindow(step, seconds) && code == env.code(factor, step)
    case SessionIssued(opening, proof, family) =>
      && family in t.families
      && LoggedIn(log, opening, proof, t.families[family].tenant, t.families[family].account)
    case GrantIssued(proof, grant, family, target) =>
      && grant in t.grants && ProofAt(log, proof, t.grants[grant].tenant, t.grants[grant].account)
      && IsOwner(t, t.grants[grant].tenant, t.grants[grant].account)
      && t.grants[grant].family == family && t.grants[grant].target == env.Binding(target)
    case RoleChanged(grant, family, command) =>
      Authorised(t, command) && PaidBy(env, t, grant, command, family)
  }

  lemma OwnerLasts(t: Tables, t': Tables, tenant: Uuid, account: Uuid)
    requires Sound(t) && Later(t, t') && IsOwner(t, tenant, account)
    ensures IsOwner(t', tenant, account)
  {
    assert OneOwner(t, tenant) && OwnersKept(t, t', tenant);
    assert Owners(t.roles, tenant) != {};
  }

  lemma ThreadLasts(env: Env, t: Tables, t': Tables, log: seq<Entry>, log': seq<Entry>, th: Thread)
    requires Sound(t) && Later(t, t') && log <= log' && ThreadInv(env, t, log, th)
    ensures ThreadInv(env, t', log', th)
  {
    if th.Commanded? || th.Redeemed? {
      OwnerLasts(t, t', th.command.tenant, th.command.actor.account);
    } else if !th.Signed? && !th.Finished? && th.purpose.ForStepUp? {
      OwnerLasts(t, t', th.tenant, th.account);
    }
  }

  lemma EntryLasts(env: Env, t: Tables, t': Tables, log: seq<Entry>, log': seq<Entry>, entry: Entry)
    requires Sound(t) && Later(t, t') && log <= log' && EntryInv(env, t, log, entry)
    ensures EntryInv(env, t', log', entry)
  {
    match entry
    case RoleChanged(grant, family, command) => PaymentLasts(env, t, t', grant, command, family);
    case GrantIssued(_, grant, _, _) => GrantLasts(t, t', grant);
    case Proof(tenant, account, factor, step, _, _) => AcceptanceLasts(t, t', tenant, account, factor, step);
    case SessionIssued(opening, proof, family) =>
      LoginLasts(log, log', opening, proof, t.families[family].tenant, t.families[family].account);
    case LoginOpened(_, _, _, _) =>
  }

  lemma LoginLasts(log: seq<Entry>, log': seq<Entry>, opening: nat, proof: nat, tenant: Uuid, account: Uuid)
    requires log <= log' && LoggedIn(log, opening, proof, tenant, account)
    ensures LoggedIn(log', opening, proof, tenant, account)
  {
  }

  lemma PaymentLasts(env: Env, t: Tables, t': Tables, grant: Uuid, command: ChangeRole, family: Uuid)
    requires Sound(t) && Later(t, t') && Authorised(t, command) && PaidBy(env, t, grant, command, family)
    ensures Authorised(t', command) && PaidBy(env, t', grant, command, family)
  {
    OwnerLasts(t, t', command.tenant, command.actor.account);
  }

  lemma GrantLasts(t: Tables, t': Tables, grant: Uuid)
    requires Sound(t) && Later(t, t') && grant in t.grants && IsOwner(t, t.grants[grant].tenant, t.grants[grant].account)
    ensures grant in t'.grants && t'.grants[grant].(consumedAt := t.grants[grant].consumedAt) == t.grants[grant]
    ensures IsOwner(t', t.grants[grant].tenant, t.grants[grant].account)
  {
    OwnerLasts(t, t', t.grants[grant].tenant, t.grants[grant].account);
  }

  lemma AcceptanceLasts(t: Tables, t': Tables, tenant: Uuid, account: Uuid, factor: Uuid, step: int)
    requires Later(t, t') && HasAccepted(t, tenant, account, factor, step)
    ensures HasAccepted(t', tenant, account, factor, step)
  {
    assert StaysActive(t.factors[factor], t'.factors[factor]);
  }

  // ---- Tokens: an opened login, an accepted code or a redeemed grant, held by a thread until it is spent ----

  datatype Token = LoginToken(opening: nat) | CodeToken(proof: nat) | GrantToken(grant: Uuid)

  function PurposeTokens(purpose: Purpose): set<Token> {
    if purpose.ForStepUp? then {} else {LoginToken(purpose.opening)}
  }

  function Holds(th: Thread): set<Token> {
    match th
    case Begun(_, _, purpose) => PurposeTokens(purpose)
    case Checked(_, _, purpose, _, _, _, _) => PurposeTokens(purpose)
    case Proved(_, _, purpose, proof) => PurposeTokens(purpose) + {CodeToken(proof)}
    case Cleared(_, _, purpose, proof) => PurposeTokens(purpose) + {CodeToken(proof)}
    case Redeemed(_, _, grant) => {GrantToken(grant)}
    case _ => {}
  }

  function Spends(entry: Entry): set<Token> {
    match entry
    case SessionIssued(opening, proof, _) => {LoginToken(opening), CodeToken(proof)}
    case GrantIssued(proof, _, _, _) => {CodeToken(proof)}
    case RoleChanged(grant, _, _) => {GrantToken(grant)}
    case _ => {}
  }

  function SpentBy(x: Effect): set<Token> {
    if x.entry.Some? then Spends(x.entry.value) else {}
  }

  /** The token has been minted: its login or code is in the log, or its grant is consumed. */
  ghost predicate Minted(t: Tables, log: seq<Entry>, token: Token) {
    match token
    case LoginToken(opening) => opening < |log|
    case CodeToken(proof) => proof < |log|
    case GrantToken(grant) => grant in t.grants && t.grants[grant].consumedAt.Some?
  }

  /** What a step holds or spends afterwards it held before, or it is newly minted; and nothing is both held and spent. */
  ghost predicate Balances(t: Tables, log: seq<Entry>, th: Thread, x: Effect) {
    && Holds(x.thread) !! SpentBy(x)
    && forall token | token in Holds(x.thread) || token in SpentBy(x) :: token in Holds(th) || !Minted(t, log, token)
  }

  /** New codes are newer than all accepted ones, new logins were open, and only an issued grant adds a grant row. */
  ghost predicate AddsNew(t: Tables, x: Effect) {
    match x.entry
    case Some(Proof(_, _, factor, step, _, _)) => x.tables.grants == t.grants && Unaccepted(t, factor, step)
    case Some(LoginOpened(login, _, _, _)) =>
      x.tables.grants == t.grants && login in t.logins && t.logins[login].consumedAt.None?
    case Some(GrantIssued(_, grant, _, _)) => grant !in t.grants && x.tables.grants.Keys == t.grants.Keys + {grant}
    case _ => x.tables.grants.Keys == t.grants.Keys
  }

  /** The effect of a step makes sense: the thread, the entry and the tokens. */
  ghost predicate Good(env: Env, t: Tables, log: seq<Entry>, th: Thread, x: Effect) {
    && ThreadInv(env, x.tables, Logged(log, x), x.thread)
    && (x.entry.Some? ==> EntryInv(env, x.tables, Logged(log, x), x.entry.value))
    && Balances(t, log, th, x) && AddsNew(t, x)
  }

  // ---- Each step is good ----

  lemma StillEntitled(t: Tables, t': Tables, log: seq<Entry>, log': seq<Entry>, tenant: Uuid, account: Uuid, purpose: Purpose)
    requires t'.roles == t.roles && log <= log' && Entitled(t, log, tenant, account, purpose)
    ensures Entitled(t', log', tenant, account, purpose)
  {
  }

  lemma OpenedIsGood(env: Env, t: Tables, log: seq<Entry>, o: Opening)
    ensures Good(env, t, log, Finished, Opened(t, |log|, o))
  {
    if o.SignIn? {
      QuietIsGood(env, t, log, Finished, Opened(t, |log|, o).thread);
    }
  }

  lemma ProvedIsGood(env: Env, t: Tables, log: seq<Entry>, th: Thread)
    requires th.Checked? && ThreadInv(env, t, log, th)
    ensures Good(env, t, log, th, ProvedStep(t, |log|, th))
  {
    var x := ProvedStep(t, |log|, th);
    ProvedThread(env, t, log, th, x);
    ProvedTokens(t, log, th, x);
    ProvedEntry(env, t, log, th, x);
  }

  lemma ProvedEntry(env: Env, t: Tables, log: seq<Entry>, th: Thread, x: Effect)
    requires th.Checked? && ThreadInv(env, t, log, th) && x == ProvedStep(t, |log|, th)
    ensures x.entry.Some? ==> EntryInv(env, x.tables, Logged(log, x), x.entry.value)
    ensures AddsNew(t, x)
  {
    assert x.tables.grants == t.grants;
  }

  lemma ProvedThread(env: Env, t: Tables, log: seq<Entry>, th: Thread, x: Effect)
    requires th.Checked? && ThreadInv(env, t, log, th) && x == ProvedStep(t, |log|, th)
    ensures ThreadInv(env, x.tables, Logged(log, x), x.thread)
  {
    assert x.tables.roles == t.roles;
    StillEntitled(t, x.tables, log, Logged(log, x), th.tenant, th.account, th.purpose);
  }

  lemma ProvedTokens(t: Tables, log: seq<Entry>, th: Thread, x: Effect)
    requires th.Checked? && x == ProvedStep(t, |log|, th)
    ensures Balances(t, log, th, x)
  {
  }

  lemma SessionIsGood(env: Env, t: Tables, log: seq<Entry>, th: Thread, n: NewSession, now: Instant)
    requires th.Cleared? && !th.purpose.ForStepUp? && ThreadInv(env, t, log, th)
    ensures Good(env, t, log, th, IssuedSession(t, th, n, now))
  {
  }

  lemma GrantIsGood(env: Env, t: Tables, log: seq<Entry>, th: Thread, n: NewGrant, now: Instant)
    requires th.Cleared? && th.purpose.ForStepUp? && ThreadInv(env, t, log, th)
    ensures Good(env, t, log, th, IssuedGrant(env, t, th, n, now))
  {
  }

  /** A role that is read is a role that is stored. */
  lemma ReadOwner(t: Tables, th: Thread, stepUp: bool)
    requires th.Signed? && ActorOf(t, th, stepUp).May(ManageRoles)
    ensures IsOwner(t, th.tenant, th.account)
  {
    ManagingRolesTakesAnOwner(ActorOf(t, th, stepUp));
  }

  lemma QuietIsGood(env: Env, t: Tables, log: seq<Entry>, th: Thread, th': Thread)
    requires ThreadInv(env, t, log, th') && Holds(th') <= Holds(th)
    ensures Good(env, t, log, th, Effect(t, th', None))
  {
    assert log + [] == log;
  }

  lemma RedeemedIsGood(env: Env, t: Tables, log: seq<Entry>, th: Thread, digest: Digest, now: Instant)
    requires th.Commanded? && ThreadInv(env, t, log, th)
    ensures Good(env, t, log, th, RedeemedGrant(env, t, th, digest, now))
  {
  }

  lemma CommitIsGood(env: Env, t: Tables, log: seq<Entry>, th: Thread)
    requires Sound(t) && th.Redeemed? && ThreadInv(env, t, log, th)
    ensures Good(env, t, log, th, CommittedRole(t, th))
  {
    var x := CommittedRole(t, th);
    Evolves(t, OnAccounts(Change(th.command)), x.tables);
    OwnerLasts(t, x.tables, th.command.tenant, th.command.actor.account);
  }

  /** Moves that only read the store. */
  predicate Reads(m: Move) {
    m.AskStepUp? || m.Command? || m.Verify? || m.Clear? || m.Abort?
  }

  lemma ReadIsGood(env: Env, t: Tables, log: seq<Entry>, th: Thread, m: Move)
    requires ThreadInv(env, t, log, th) && Reads(m)
    ensures Good(env, t, log, th, Moved(env, t, |log|, th, m))
  {
    var th' := Moved(env, t, |log|, th, m).thread;
    if th.Signed? && !th'.Signed? && !th'.Finished? {
      ReadOwner(t, th, false);
    }
    assert ThreadInv(env, t, log, th') && Holds(th') <= Holds(th);
    QuietIsGood(env, t, log, th, th');
  }

  lemma WriteIsGood(env: Env, t: Tables, log: seq<Entry>, th: Thread, m: Move)
    requires Sound(t) && ThreadInv(env, t, log, th) && !Reads(m)
    ensures Good(env, t, log, th, Moved(env, t, |log|, th, m))
  {
    if th.Checked? && m.Prove? {
      ProvedIsGood(env, t, log, th);
    } else if th.Cleared? && m.IssueSession? && !th.purpose.ForStepUp? {
      SessionIsGood(env, t, log, th, m.session, m.now);
    } else if th.Cleared? && m.IssueGrant? && th.purpose.ForStepUp? {
      GrantIsGood(env, t, log, th, m.grant, m.now);
    } else if th.Commanded? && m.RedeemWith? {
      RedeemedIsGood(env, t, log, th, m.digest, m.now);
    } else if th.Redeemed? && m.Commit? {
      CommitIsGood(env, t, log, th);
    } else {
      QuietIsGood(env, t, log, th, th);
    }
  }

  // ---- The world ----

  /** Steps accepted for one factor increase along the log. */
  ghost predicate CodesIncrease(log: seq<Entry>) {
    forall i, j | 0 <= i < j < |log| && log[i].Proof? && log[j].Proof? && log[i].factor == log[j].factor ::
      log[i].step < log[j].step
  }

  /** No login transaction is opened twice. */
  ghost predicate LoginsDiffer(log: seq<Entry>) {
    forall i, j | 0 <= i < j < |log| && log[i].LoginOpened? && log[j].LoginOpened? :: log[i].login != log[j].login
  }

  /** Each stored grant was issued by some entry. */
  ghost predicate GrantsLogged(grants: set<Uuid>, log: seq<Entry>) {
    forall g | g in grants :: exists a :: Issued(log, a, g)
  }

  /** No grant is issued twice. */
  ghost predicate GrantsDiffer(log: seq<Entry>) {
    forall i, j | 0 <= i < j < |log| && log[i].GrantIssued? && log[j].GrantIssued? :: log[i].grant != log[j].grant
  }

  predicate Issued(log: seq<Entry>, a: nat, grant: Uuid) {
    a < |log| && log[a].GrantIssued? && log[a].grant == grant
  }

  /** What an entry rests on comes before it: the login and the code of a session, the code of a grant, the grant of a change. */
  ghost predicate RestsOnEarlier(log: seq<Entry>, i: nat)
    requires i < |log|
  {
    match log[i]
    case SessionIssued(opening, proof, _) => opening < i && proof < i
    case GrantIssued(proof, _, _, _) => proof < i
    case RoleChanged(grant, _, _) => exists a: nat :: a < i && Issued(log, a, grant)
    case _ => true
  }

  ghost predicate Ordered(log: seq<Entry>) {
    forall i | 0 <= i < |log| :: RestsOnEarlier(log, i)
  }

  ghost predicate SpentOnce(log: seq<Entry>) {
    forall i, j | 0 <= i < j < |log| :: Spends(log[i]) !! Spends(log[j])
  }

  ghost predicate HeldOnce(threads: map<nat, Thread>) {
    forall k, l | k in threads && l in threads && k != l :: Holds(threads[k]) !! Holds(threads[l])
  }

  ghost predicate HeldUnspent(threads: map<nat, Thread>, log: seq<Entry>) {
    forall k, i | k in threads && 0 <= i < |log| :: Holds(threads[k]) !! Spends(log[i])
  }

  ghost predicate AllMinted(t: Tables, threads: map<nat, Thread>, log: seq<Entry>) {
    && (forall k, token | k in threads && token in Holds(threads[k]) :: Minted(t, log, token))
    && (forall i, token | 0 <= i < |log| && token in Spends(log[i]) :: Minted(t, log, token))
  }

  ghost predicate WorldInv(env: Env, w: World) {
    && Sound(w.tables)
    && (forall k | k in w.threads :: ThreadInv(env, w.tables, w.log, w.threads[k]))
    && (forall i | 0 <= i < |w.log| :: EntryInv(env, w.tables, w.log, w.log[i]))
    && CodesIncrease(w.log) && LoginsDiffer(w.log) && Ordered(w.log)
    && GrantsLogged(w.tables.grants.Keys, w.log) && GrantsDiffer(w.log)
    && SpentOnce(w.log) && HeldOnce(w.threads) && HeldUnspent(w.threads, w.log)
  }

  /** Tokens are only ever held or spent after they are minted. */
  lemma InvMints(env: Env, w: World)
    requires WorldInv(env, w)
    ensures AllMinted(w.tables, w.threads, w.log)
  {
    forall k, token | k in w.threads && token in Holds(w.threads[k])
      ensures Minted(w.tables, w.log, token)
    {
      assert ThreadInv(env, w.tables, w.log, w.threads[k]);
    }
    forall i, token | 0 <= i < |w.log| && token in Spends(w.log[i])
      ensures Minted(w.tables, w.log, token)
    {
      assert EntryInv(env, w.tables, w.log, w.log[i]);
    }
  }

  /** Where a thread stands; one that has not started holds nothing. */
  function At(threads: map<nat, Thread>, k: nat): Thread {
    if k in threads then threads[k] else Finished
  }

  /** What balances for one thread keeps every token in one place. */
  lemma BalancesKeepTokens(t: Tables, threads: map<nat, Thread>, log: seq<Entry>, k: nat, x: Effect)
    requires SpentOnce(log) && HeldOnce(threads) && HeldUnspent(threads, log) && AllMinted(t, threads, log)
    requires Balances(t, log, At(threads, k), x)
    ensures SpentOnce(Logged(log, x))
    ensures HeldOnce(threads[k := x.thread])
    ensures HeldUnspent(threads[k := x.thread], Logged(log, x))
  {
    forall i | 0 <= i < |log|
      ensures (Holds(x.thread) + SpentBy(x)) !! Spends(log[i])
    {
    }
    forall l | l in threads && l != k
      ensures (Holds(x.thread) + SpentBy(x)) !! Holds(threads[l])
    {
    }
  }

  lemma GoodKeepsCodes(env: Env, w: World, x: Effect)
    requires WorldInv(env, w) && AddsNew(w.tables, x)
    ensures CodesIncrease(Logged(w.log, x)) && LoginsDiffer(Logged(w.log, x))
  {
    forall i | 0 <= i < |w.log| && x.entry.Some?
      ensures w.log[i].Proof? && x.entry.value.Proof? && w.log[i].factor == x.entry.value.factor ==> w.log[i].step < x.entry.value.step
      ensures w.log[i].LoginOpened? && x.entry.value.LoginOpened? ==> w.log[i].login != x.entry.value.login
    {
      assert EntryInv(env, w.tables, w.log, w.log[i]);
    }
  }

  lemma IssuedLasts(log: seq<Entry>, log': seq<Entry>, grant: Uuid)
    requires log <= log' && exists a :: Issued(log, a, grant)
    ensures exists a: nat :: a < |log| && Issued(log', a, grant)
  {
    var a :| Issued(log, a, grant);
    assert Issued(log', a, grant);
  }

  lemma StillLogged(grants: set<Uuid>, log: seq<Entry>, log': seq<Entry>)
    requires GrantsLogged(grants, log) && log <= log'
    ensures GrantsLogged(grants, log')
  {
    forall g | g in grants
      ensures exists a :: Issued(log', a, g)
    {
      IssuedLasts(log, log', g);
    }
  }

  /** Logging a new grant, or none, keeps every grant logged once. */
  lemma LogGrant(before: set<Uuid>, after: set<Uuid>, log: seq<Entry>, x: Effect)
    requires GrantsLogged(before, log) && GrantsDiffer(log)
    requires forall i | 0 <= i < |log| && log[i].GrantIssued? :: log[i].grant in before
    requires if x.entry.Some? && x.entry.value.GrantIssued? then
               x.entry.value.grant !in before && after == before + {x.entry.value.grant}
             else after == before
    ensures GrantsLogged(after, Logged(log, x)) && GrantsDiffer(Logged(log, x))
  {
    StillLogged(before, log, Logged(log, x));
    if x.entry.Some? && x.entry.value.GrantIssued? {
      assert Issued(Logged(log, x), |log|, x.entry.value.grant);
    }
  }

  lemma GoodKeepsGrants(env: Env, w: World, x: Effect)
    requires WorldInv(env, w) && AddsNew(w.tables, x)
    ensures GrantsLogged(x.tables.grants.Keys, Logged(w.log, x)) && GrantsDiffer(Logged(w.log, x))
  {
    GrantRowsStand(env, w);
    LogGrant(w.tables.grants.Keys, x.tables.grants.Keys, w.log, x);
  }

  /** An issued grant is stored. */
  lemma GrantRowsStand(env: Env, w: World)
    requires WorldInv(env, w)
    ensures forall i | 0 <= i < |w.log| && w.log[i].GrantIssued? :: w.log[i].grant in w.tables.grants
  {
    forall i | 0 <= i < |w.log| && w.log[i].GrantIssued?
      ensures w.log[i].grant in w.tables.grants
    {
      assert EntryInv(env, w.tables, w.log, w.log[i]);
    }
  }

  /** A new entry rests on entries already there, so the order is kept. */
  lemma GoodKeepsOrder(env: Env, w: World, th: Thread, x: Effect)
    requires WorldInv(env, w) && Good(env, w.tables, w.log, th, x)
    ensures Ordered(Logged(w.log, x))
  {
    var log := Logged(w.log, x);
    forall i | 0 <= i < |log|
      ensures RestsOnEarlier(log, i)
    {
      if i < |w.log| {
        OrderLasts(w.log, log, i);
      } else if log[i].RoleChanged? {
        IssuedLasts(w.log, log, log[i].grant);
      }
    }
  }

  lemma OrderLasts(log: seq<Entry>, log': seq<Entry>, i: nat)
    requires log <= log' && i < |log| && RestsOnEarlier(log, i)
    ensures RestsOnEarlier(log', i)
  {
    if log[i].RoleChanged? {
      var a: nat :| a < i && Issued(log, a, log[i].grant);
      assert Issued(log', a, log[i].grant);
    }
  }

  // ---- Every step and every run ----

  /** Threads and entries that a step leaves alone still stand for what they did. */
  lemma OthersLast(env: Env, w: World, t': Tables, log': seq<Entry>)
    requires WorldInv(env, w) && Later(w.tables, t') && w.log <= log'
    ensures forall k | k in w.threads :: ThreadInv(env, t', log', w.threads[k])
    ensures forall i | 0 <= i < |w.log| :: EntryInv(env, t', log', w.log[i])
  {
    forall k | k in w.threads
      ensures ThreadInv(env, t', log', w.threads[k])
    {
      ThreadLasts(env, w.tables, t', w.log, log', w.threads[k]);
    }
    forall i | 0 <= i < |w.log|
      ensures EntryInv(env, t', log', w.log[i])
    {
      EntryLasts(env, w.tables, t', w.log, log', w.log[i]);
    }
  }

  /** A good step of one thread keeps the world's invariant. */
  lemma GoodKeeps(env: Env, w: World, k: nat, x: Effect)
    requires WorldInv(env, w) && Good(env, w.tables, w.log, At(w.threads, k), x)
    requires Sound(x.tables) && Later(w.tables, x.tables)
    ensures WorldInv(env, Applied(w, k, x))
  {
    InvMints(env, w);
    BalancesKeepTokens(w.tables, w.threads, w.log, k, x);
    GoodKeepsCodes(env, w, x);
    GoodKeepsGrants(env, w, x);
    GoodKeepsOrder(env, w, At(w.threads, k), x);
    OthersLast(env, w, x.tables, Logged(w.log, x));
  }

  lemma StartKeeps(env: Env, w: World, k: nat, o: Opening)
    requires WorldInv(env, w) && k !in w.threads
    ensures WorldInv(env, Applied(w, k, Opened(w.tables, |w.log|, o)))
  {
    OpenedIsGood(env, w.tables, w.log, o);
    OpenedEvolves(w.tables, |w.log|, o, Opened(w.tables, |w.log|, o).tables);
    GoodKeeps(env, w, k, Opened(w.tables, |w.log|, o));
  }

  lemma ContinueKeeps(env: Env, w: World, k: nat, m: Move)
    requires WorldInv(env, w) && k in w.threads
    ensures WorldInv(env, Applied(w, k, Moved(env, w.tables, |w.log|, w.threads[k], m)))
  {
    if Reads(m) {
      ReadIsGood(env, w.tables, w.log, w.threads[k], m);
    } else {
      WriteIsGood(env, w.tables, w.log, w.threads[k], m);
    }
    var x := Moved(env, w.tables, |w.log|, w.threads[k], m);
    MovedEvolves(env, w.tables, |w.log|, w.threads[k], m, x.tables);
    GoodKeeps(env, w, k, x);
  }

  lemma BackgroundKeeps(env: Env, w: World, r: Request)
    requires WorldInv(env, w) && Elsewhere(r)
    ensures WorldInv(env, w.(tables := Perform(w.tables, r)))
  {
    PerformEvolves(w.tables, r);
    OthersLast(env, w, Perform(w.tables, r), w.log);
    assert Perform(w.tables, r).grants == w.tables.grants;
  }

  lemma NextKeeps(env: Env, w: World, e: Event)
    requires WorldInv(env, w)
    ensures WorldInv(env, Next(env, w, e))
  {
    match e
    case Background(r) => if Elsewhere(r) { BackgroundKeeps(env, w, r); }
    case Start(k, o) => if k !in w.threads { StartKeeps(env, w, k, o); }
    case Continue(k, m) => if k in w.threads { ContinueKeeps(env, w, k, m); }
  }

  lemma {:induction false} RunKeeps(env: Env, worlds: seq<World>, events: seq<Event>, i: nat)
    requires Handlers.IsRun(env, worlds, events) && i < |worlds|
    ensures WorldInv(env, worlds[i])
  {
    if i == 0 {
      EmptySound();
    } else {
      RunKeeps(env, worlds, events, i - 1);
      NextKeeps(env, worlds[i - 1], events[i - 1]);
    }
  }

  lemma EmptySound()
    ensures Sound(EMPTY)
  {
    assert forall tenant :: Owners(EMPTY.roles, tenant) == {};
  }

  // ---- What is paid for ----

  /** Each accepted code yields at most one session family or one grant. */
  lemma OneCodeOnePrivilege(env: Env, worlds: seq<World>, events: seq<Event>, n: nat, i: nat, j: nat)
    requires Handlers.IsRun(env, worlds, events) && n < |worlds|
    requires i < j < |worlds[n].log|
    requires (worlds[n].log[i].SessionIssued? || worlds[n].log[i].GrantIssued?)
          && (worlds[n].log[j].SessionIssued? || worlds[n].log[j].GrantIssued?)
    ensures var log := worlds[n].log;
            && log[i].proof < |log| && log[j].proof < |log| && log[log[i].proof].Proof? && log[log[j].proof].Proof?
            && (log[log[i].proof].factor, log[log[i].proof].step) != (log[log[j].proof].factor, log[log[j].proof].step)
  {
    var w := worlds[n];
    RunKeeps(env, worlds, events, n);
    assert EntryInv(env, w.tables, w.log, w.log[i]) && EntryInv(env, w.tables, w.log, w.log[j]);
    CodesDiffer(w.log, i, j);
    ProofsDiffer(w.log, w.log[i].proof, w.log[j].proof);
  }

  lemma CodesDiffer(log: seq<Entry>, i: nat, j: nat)
    requires SpentOnce(log) && i < |log| && j < |log| && i != j
    requires (log[i].SessionIssued? || log[i].GrantIssued?) && (log[j].SessionIssued? || log[j].GrantIssued?)
    ensures log[i].proof != log[j].proof
  {
    assert CodeToken(log[i].proof) in Spends(log[i]) && CodeToken(log[j].proof) in Spends(log[j]);
    assert if i < j then Spends(log[i]) !! Spends(log[j]) else Spends(log[j]) !! Spends(log[i]);
  }

  /** Each opened login transaction yields at most one session family. */
  lemma OneLoginOneSession(env: Env, worlds: seq<World>, events: seq<Event>, n: nat, i: nat, j: nat)
    requires Handlers.IsRun(env, worlds, events) && n < |worlds|
    requires i < j < |worlds[n].log| && worlds[n].log[i].SessionIssued? && worlds[n].log[j].SessionIssued?
    ensures var log := worlds[n].log;
            && log[i].opening < |log| && log[j].opening < |log|
            && log[log[i].opening].LoginOpened? && log[log[j].opening].LoginOpened?
            && log[log[i].opening].login != log[log[j].opening].login
  {
    var w := worlds[n];
    RunKeeps(env, worlds, events, n);
    assert EntryInv(env, w.tables, w.log, w.log[i]) && EntryInv(env, w.tables, w.log, w.log[j]);
    assert Spends(w.log[i]) !! Spends(w.log[j]);
    assert LoginToken(w.log[i].opening) in Spends(w.log[i]) && LoginToken(w.log[j].opening) in Spends(w.log[j]);
    LoginEntriesDiffer(w.log, w.log[i].opening, w.log[j].opening);
  }

  lemma LoginEntriesDiffer(log: seq<Entry>, p: nat, q: nat)
    requires LoginsDiffer(log) && p < |log| && q < |log| && p != q && log[p].LoginOpened? && log[q].LoginOpened?
    ensures log[p].login != log[q].login
  {
    if p < q {
      assert log[p].login != log[q].login;
    } else {
      assert log[q].login != log[p].login;
    }
  }

  lemma ProofsDiffer(log: seq<Entry>, p: nat, q: nat)
    requires CodesIncrease(log) && p < |log| && q < |log| && p != q && log[p].Proof? && log[q].Proof?
    ensures (log[p].factor, log[p].step) != (log[q].factor, log[q].step)
  {
    if p < q {
      assert log[p].factor == log[q].factor ==> log[p].step < log[q].step;
    } else {
      assert log[p].factor == log[q].factor ==> log[q].step < log[p].step;
    }
  }

  /** Every accepted code is the right one of the current or the previous 30-second step of the request's clock. */
  lemma CodesAreFresh(env: Env, worlds: seq<World>, events: seq<Event>, n: nat, i: nat)
    requires Handlers.IsRun(env, worlds, events) && n < |worlds| && i < |worlds[n].log| && worlds[n].log[i].Proof?
    ensures var proof := worlds[n].log[i];
            && (proof.step == CurrentStep(proof.seconds) || proof.step == CurrentStep(proof.seconds) - 1)
            && proof.code == env.code(proof.factor, proof.step)
            && HasFactor(worlds[n].tables, proof.factor, proof.tenant, proof.account, ActiveFactor)
  {
    RunKeeps(env, worlds, events, n);
    assert EntryInv(env, worlds[n].tables, worlds[n].log, worlds[n].log[i]);
  }

  /** A session issued on a code rests on a login transaction and a code of the very account that owns its family. */
  lemma PaidSession(env: Env, worlds: seq<World>, events: seq<Event>, n: nat, i: nat)
    requires Handlers.IsRun(env, worlds, events) && n < |worlds|
    requires i < |worlds[n].log| && worlds[n].log[i].SessionIssued?
    ensures var w := worlds[n]; var family := w.log[i].family;
            && w.log[i].opening < i && w.log[i].proof < i && family in w.tables.families
            && LoggedIn(w.log, w.log[i].opening, w.log[i].proof, w.tables.families[family].tenant, w.tables.families[family].account)
  {
    RunKeeps(env, worlds, events, n);
    assert EntryInv(env, worlds[n].tables, worlds[n].log, worlds[n].log[i]) && RestsOnEarlier(worlds[n].log, i);
  }

  /** A grant goes only to the owner of the tenant, on a code of that owner. */
  lemma PaidGrant(env: Env, worlds: seq<World>, events: seq<Event>, n: nat, i: nat)
    requires Handlers.IsRun(env, worlds, events) && n < |worlds|
    requires i < |worlds[n].log| && worlds[n].log[i].GrantIssued?
    ensures var w := worlds[n]; var grant := w.log[i].grant;
            && w.log[i].proof < i && grant in w.tables.grants
            && (w.tables.grants[grant].tenant, w.tables.grants[grant].account, Owner) in w.tables.roles
            && ProofAt(w.log, w.log[i].proof, w.tables.grants[grant].tenant, w.tables.grants[grant].account)
  {
    RunKeeps(env, worlds, events, n);
    assert EntryInv(env, worlds[n].tables, worlds[n].log, worlds[n].log[i]) && RestsOnEarlier(worlds[n].log, i);
  }

  /**
   * Entry `a` paid for the role change at `i`: before it, a grant of the same session family, bound to exactly its
   * account, role and direction, issued on an earlier code of the actor.
   */
  predicate PaidFor(log: seq<Entry>, a: nat, i: nat)
    requires i < |log| && log[i].RoleChanged?
  {
    && a < i && Issued(log, a, log[i].grant) && log[a].family == log[i].family
    && log[a].target == RoleTarget(log[i].command.target, log[i].command.role, log[i].command.grant)
    && log[a].proof < a && ProofAt(log, log[a].proof, log[i].command.tenant, log[i].command.actor.account)
  }

  /** A grant pays for a command only if it was bound to that command. */
  lemma BoundAlike(env: Env, t: Tables, log: seq<Entry>, a: nat, i: nat)
    requires env.CollisionFree() && i < |log| && log[i].RoleChanged? && Issued(log, a, log[i].grant)
    requires EntryInv(env, t, log, log[a]) && EntryInv(env, t, log, log[i])
    ensures log[a].family == log[i].family && log[a].target == TargetOf(log[i].command)
    ensures ProofAt(log, log[a].proof, log[i].command.tenant, log[i].command.actor.account)
  {
    assert env.Binding(log[a].target) == env.Binding(TargetOf(log[i].command));
    TargetBytesInjective(log[a].target, TargetOf(log[i].command));
  }

  lemma RoleChangeIsPaid(env: Env, w: World, i: nat) returns (a: nat)
    requires env.CollisionFree() && WorldInv(env, w) && i < |w.log| && w.log[i].RoleChanged?
    ensures PaidFor(w.log, a, i)
  {
    assert RestsOnEarlier(w.log, i);
    a :| a < i && Issued(w.log, a, w.log[i].grant);
    assert RestsOnEarlier(w.log, a);
    assert EntryInv(env, w.tables, w.log, w.log[i]) && EntryInv(env, w.tables, w.log, w.log[a]);
    BoundAlike(env, w.tables, w.log, a, i);
  }

  /**
   * Every committed role change was made by an owner of the tenant, who before it passed a fresh code for exactly this
   * account, role and direction, in the same session family.
   */
  lemma PaidRoleChange(env: Env, worlds: seq<World>, events: seq<Event>, n: nat, i: nat) returns (a: nat)
    requires env.CollisionFree() && Handlers.IsRun(env, worlds, events)
    requires n < |worlds| && i < |worlds[n].log| && worlds[n].log[i].RoleChanged?
    ensures PaidFor(worlds[n].log, a, i)
    ensures var w := worlds[n]; var command := w.log[i].command;
            command.role != Owner && (command.tenant, command.actor.account, Owner) in w.tables.roles
  {
    RunKeeps(env, worlds, events, n);
    a := RoleChangeIsPaid(env, worlds[n], i);
    assert EntryInv(env, worlds[n].tables, worlds[n].log, worlds[n].log[i]);
  }

  lemma ChangesSpendTheirOwn(log: seq<Entry>, i: nat, j: nat)
    requires SpentOnce(log) && i < j < |log| && log[i].RoleChanged? && log[j].RoleChanged?
    ensures log[i].grant != log[j].grant
  {
    assert GrantToken(log[i].grant) in Spends(log[i]) && GrantToken(log[j].grant) in Spends(log[j]);
    assert Spends(log[i]) !! Spends(log[j]);
  }

  /** The codes behind the grants that paid for two role changes are different steps of a factor, or of different factors. */
  predicate PaidApart(log: seq<Entry>, a: nat, b: nat)
    requires a < |log| && log[a].GrantIssued? && b < |log| && log[b].GrantIssued?
  {
    && log[a].grant != log[b].grant
    && log[a].proof < |log| && log[b].proof < |log| && log[log[a].proof].Proof? && log[log[b].proof].Proof?
    && (log[log[a].proof].factor, log[log[a].proof].step) != (log[log[b].proof].factor, log[log[b].proof].step)
  }

  lemma ApartWhenGrantsDiffer(log: seq<Entry>, a: nat, b: nat, i: nat, j: nat)
    requires SpentOnce(log) && CodesIncrease(log) && i < j < |log| && log[i].RoleChanged? && log[j].RoleChanged?
    requires PaidFor(log, a, i) && PaidFor(log, b, j)
    ensures PaidApart(log, a, b)
  {
    ChangesSpendTheirOwn(log, i, j);
    CodesDiffer(log, a, b);
    ProofsDiffer(log, log[a].proof, log[b].proof);
  }

  /** Two role changes never share a grant, nor do the grants that paid for them share an accepted code. */
  lemma OneCodeOneRoleChange(env: Env, worlds: seq<World>, events: seq<Event>, n: nat, i: nat, j: nat)
    returns (a: nat, b: nat)
    requires env.CollisionFree() && Handlers.IsRun(env, worlds, events)
    requires n < |worlds| && i < j < |worlds[n].log| && worlds[n].log[i].RoleChanged? && worlds[n].log[j].RoleChanged?
    ensures PaidFor(worlds[n].log, a, i) && PaidFor(worlds[n].log, b, j) && PaidApart(worlds[n].log, a, b)
  {
    RunKeeps(env, worlds, events, n);
    a := RoleChangeIsPaid(env, worlds[n], i);
    b := RoleChangeIsPaid(env, worlds[n], j);
    ApartWhenGrantsDiffer(worlds[n].log, a, b, i, j);
  }

  /** That is so of any grants that paid for them. */
  lemma AnyPaymentsAreApart(env: Env, worlds: seq<World>, events: seq<Event>, n: nat, i: nat, j: nat, a: nat, b: nat)
    requires Handlers.IsRun(env, worlds, events) && n < |worlds|
    requires i < j < |worlds[n].log| && worlds[n].log[i].RoleChanged? && worlds[n].log[j].RoleChanged?
    requires PaidFor(worlds[n].log, a, i) && PaidFor(worlds[n].log, b, j)
    ensures PaidApart(worlds[n].log, a, b)
  {
    RunKeeps(env, worlds, events, n);
    ApartWhenGrantsDiffer(worlds[n].log, a, b, i, j);
  }
}
