/** A run in which an owner enrols, receives a session and a grant, and changes a guest's role: what is paid for can be had. */
module HandlerWitness {
  import opened Results
  import opened AuthorityTables
  import opened Administration
  import opened AuthorityRuns
  import opened Totp
  import opened Handlers

  const TENANT: Uuid := 1
  const OWNER: Uuid := 2
  const FACTOR: Uuid := 3
  const LOGIN: Uuid := 4
  const FAMILY: Uuid := 5
  const SESSION: Uuid := 6
  const GRANT: Uuid := 7
  const GUEST: Uuid := 9
  const TARGET := RoleTarget(GUEST, Operator, true)

  /** Some run ends in this world. */
  ghost predicate Reachable(env: Env, w: World) {
    exists worlds, events :: Handlers.IsRun(env, worlds, events) && worlds[|events|] == w
  }

  lemma Begins(env: Env)
    ensures Reachable(env, World(EMPTY, map[], []))
  {
    assert Handlers.IsRun(env, [World(EMPTY, map[], [])], []);
  }

  /** Extending a run by one event. */
  lemma Extends(env: Env, w: World, event: Event, w': World)
    requires Reachable(env, w) && w' == Next(env, w, event)
    ensures Reachable(env, w')
  {
    var worlds, events :| Handlers.IsRun(env, worlds, events) && worlds[|events|] == w;
    var more, all := worlds + [w'], events + [event];
    forall i | 0 <= i < |all|
      ensures more[i + 1] == Next(env, more[i], all[i])
    {
      if i < |events| { assert worlds[i + 1] == Next(env, worlds[i], events[i]); }
    }
    assert Handlers.IsRun(env, more, all) && more[|all|] == w';
  }

  // ---- The tables along the run ----

  const ENROLLING := Account(TENANT, "owner", MfaEnrollmentRequired)
  const PENDING := Factor(TENANT, OWNER, PendingFactor, None)
  const OPEN := Login(TENANT, OWNER, 40, MfaEnrollment, 50, Some(FACTOR), 100, None)

  const TENANTS: map<Uuid, string> := map[TENANT := "example.org"]
  const ENROLLING_ACCOUNTS: map<Uuid, Account> := map[OWNER := ENROLLING]
  const OWNERS: set<(Uuid, Uuid, Role)> := {(TENANT, OWNER, Owner)}
  const GUEST_ACCOUNT := Account(TENANT, "guest", MfaEnrollmentRequired)
  const ROLES: set<(Uuid, Uuid, Role)> := {(TENANT, OWNER, Owner), (TENANT, GUEST, Member)}
  const INVITATION := InviteAccount(TENANT, "guest", Member, Actor(TENANT, OWNER, {Owner}, false, Active))

  const BOOTSTRAPPED := EMPTY.(tenants := TENANTS, accounts := ENROLLING_ACCOUNTS, roles := OWNERS)
  const JOINED := BOOTSTRAPPED.(accounts := map[OWNER := ENROLLING, GUEST := GUEST_ACCOUNT], roles := ROLES)
  const WITH_FACTOR := JOINED.(factors := map[FACTOR := PENDING])
  const INVITED := WITH_FACTOR.(logins := map[LOGIN := OPEN])
  const OPENED := INVITED.(logins := map[LOGIN := OPEN.(stage := Consumed, consumedAt := Some(0))])
  const ENROLLED := OPENED.(
    factors := map[FACTOR := Factor(TENANT, OWNER, ActiveFactor, Some(10))],
    accounts := map[OWNER := ENROLLING.(state := Active), GUEST := GUEST_ACCOUNT])
  const SIGNED_IN := ENROLLED.(
    families := map[FAMILY := Family(TENANT, OWNER, None)],
    credentials := map[8 := Credential(TENANT, OWNER, FAMILY, 60, 200, None, None)],
    sessions := map[SESSION := Session(TENANT, OWNER, FAMILY, 70, 100, None)])
  const STEPPED_UP := SIGNED_IN.(factors := map[FACTOR := Factor(TENANT, OWNER, ActiveFactor, Some(11))])

  function GrantRow(env: Env): Grant {
    Grant(TENANT, OWNER, FAMILY, env.Binding(TARGET), 80, 100, None)
  }

  function Granted(env: Env): Tables {
    STEPPED_UP.(grants := map[GRANT := GrantRow(env)])
  }

  function Used(env: Env): Tables {
    STEPPED_UP.(grants := map[GRANT := GrantRow(env).(consumedAt := Some(0))])
  }

  function Promoted(env: Env): Tables {
    Used(env).(roles := {(TENANT, OWNER, Owner), (TENANT, GUEST, Member), (TENANT, GUEST, Operator)})
  }

  // ---- Preparing the enrolment ----

  lemma Prepared(env: Env)
    ensures Reachable(env, World(INVITED, map[], []))
  {
    Begins(env);
    Bootstraps();
    Extends(env, World(EMPTY, map[], []), Background(OnAccounts(BootstrapTenant(TENANT, OWNER, "example.org", "owner"))),
            World(BOOTSTRAPPED, map[], []));
    Invites();
    Extends(env, World(BOOTSTRAPPED, map[], []), Background(OnAccounts(InviteTo(INVITATION, GUEST))), World(JOINED, map[], []));
    AddsFactor();
    Extends(env, World(JOINED, map[], []), Background(OnFactors(CreatePending(TENANT, OWNER, FACTOR))),
            World(WITH_FACTOR, map[], []));
    AddsLogin();
    Extends(env, World(WITH_FACTOR, map[], []),
            Background(OnLogins(Begin(NewLogin(LOGIN, TENANT, OWNER, 40, MfaEnrollment, 50, Some(FACTOR), 100), 0))),
            World(INVITED, map[], []));
  }

  lemma Bootstraps()
    ensures Perform(EMPTY, OnAccounts(BootstrapTenant(TENANT, OWNER, "example.org", "owner"))) == BOOTSTRAPPED
  {
    assert EMPTY.tenants[TENANT := "example.org"] == TENANTS;
    assert EMPTY.accounts[OWNER := ENROLLING] == ENROLLING_ACCOUNTS;
    assert EMPTY.roles + {(TENANT, OWNER, Owner)} == OWNERS;
  }

  lemma Invites()
    ensures Perform(BOOTSTRAPPED, OnAccounts(InviteTo(INVITATION, GUEST))) == JOINED
  {
    InvitingTakesAuthority(INVITATION);
    assert BOOTSTRAPPED.accounts[GUEST := GUEST_ACCOUNT] == JOINED.accounts;
    assert OWNERS + {(TENANT, GUEST, Member)} == ROLES;
  }

  lemma AddsFactor()
    ensures Perform(JOINED, OnFactors(CreatePending(TENANT, OWNER, FACTOR))) == WITH_FACTOR
  {
    assert EMPTY.factors[FACTOR := PENDING] == map[FACTOR := PENDING];
  }

  lemma AddsLogin()
    ensures Perform(WITH_FACTOR, OnLogins(Begin(NewLogin(LOGIN, TENANT, OWNER, 40, MfaEnrollment, 50, Some(FACTOR), 100), 0))) == INVITED
  {
    assert EMPTY.logins[LOGIN := OPEN] == map[LOGIN := OPEN];
  }

  // ---- Running threads ----

  /** The world has these tables and this log, and thread `k` stands here; later threads have not started. */
  ghost predicate Stands(w: World, t: Tables, log: seq<Entry>, k: nat, th: Thread) {
    w.tables == t && w.log == log && k in w.threads && w.threads[k] == th && forall l | l > k :: l !in w.threads
  }

  /** Some run brings thread `k` here, over these tables and this log. */
  ghost predicate Comes(env: Env, t: Tables, log: seq<Entry>, k: nat, th: Thread) {
    exists w :: Reachable(env, w) && Stands(w, t, log, k, th)
  }

  lemma Starts(env: Env, w: World, k: nat, o: Opening, x: Effect)
    requires Reachable(env, w) && x == Opened(w.tables, |w.log|, o) && forall l | l >= k :: l !in w.threads
    ensures Comes(env, x.tables, Logged(w.log, x), k, x.thread)
  {
    var w' := Applied(w, k, x);
    Extends(env, w, Start(k, o), w');
    assert Stands(w', x.tables, Logged(w.log, x), k, x.thread);
  }

  lemma Follows(env: Env, t: Tables, log: seq<Entry>, k: nat, th: Thread, o: Opening, x: Effect)
    requires Comes(env, t, log, k, th) && x == Opened(t, |log|, o)
    ensures Comes(env, x.tables, Logged(log, x), k + 1, x.thread)
  {
    var w :| Reachable(env, w) && Stands(w, t, log, k, th);
    Starts(env, w, k + 1, o, x);
  }

  lemma Moves(env: Env, t: Tables, log: seq<Entry>, k: nat, th: Thread, m: Move, x: Effect)
    requires Comes(env, t, log, k, th) && x == Moved(env, t, |log|, th, m)
    ensures Comes(env, x.tables, Logged(log, x), k, x.thread)
  {
    var w :| Reachable(env, w) && Stands(w, t, log, k, th);
    var w' := Applied(w, k, x);
    Extends(env, w, Continue(k, m), w');
    assert Stands(w', x.tables, Logged(log, x), k, x.thread);
  }

  /** A move that logs nothing. */
  lemma Passes(env: Env, t: Tables, log: seq<Entry>, k: nat, th: Thread, m: Move, th': Thread)
    requires Comes(env, t, log, k, th) && Moved(env, t, |log|, th, m) == Effect(t, th', None)
    ensures Comes(env, t, log, k, th')
  {
    Moves(env, t, log, k, th, m, Effect(t, th', None));
    assert log + [] == log;
  }

  // ---- Enrolment ----

  const ENTRY0 := LoginOpened(LOGIN, MfaEnrollment, TENANT, OWNER)
  const ENTRY2 := SessionIssued(0, 1, FAMILY)
  const ENTRY4 := GrantIssued(3, GRANT, FAMILY, TARGET)
  const ENROLMENT := ForEnrolment(0, FACTOR)

  function ProofOf(env: Env, step: int): Entry {
    Proof(TENANT, OWNER, FACTOR, step, 30 * step, env.code(FACTOR, step))
  }

  function CodeText(env: Env, step: int): string {
    Digits(env.code(FACTOR, step), DIGITS)
  }

  function CheckedAt(env: Env, purpose: Purpose, step: int): Thread {
    Checked(TENANT, OWNER, purpose, FACTOR, step, 30 * step, env.code(FACTOR, step))
  }

  lemma OpensEnrolment()
    ensures Opened(INVITED, 0, OpenEnrolment(40, 50, 0)) == Effect(OPENED, Begun(TENANT, OWNER, ENROLMENT), Some(ENTRY0))
  {
    assert Opens(INVITED, LOGIN, 40, MfaEnrollment, 50, 0);
    var done := ConsumeLogin(INVITED, 40, MfaEnrollment, 50, 0);
    assert done.answer.Ok? && done.answer.value == OpenedLogin(LOGIN, OPEN);
    assert done.tables.logins == OPENED.logins;
  }

  /** The right code of the current step is accepted while the stored step is older. */
  lemma VerifiesCurrent(env: Env, t: Tables, purpose: Purpose, status: FactorStatus, step: nat)
    requires status == if purpose.ForEnrolment? then PendingFactor else ActiveFactor
    requires t.factors.Keys == {FACTOR} && HasFactor(t, FACTOR, TENANT, OWNER, status)
    requires purpose.ForEnrolment? ==> purpose.factor == FACTOR
    requires t.factors[FACTOR].lastStep.None? || t.factors[FACTOR].lastStep.value < step
    requires env.code(FACTOR, step) < 1_000_000
    ensures VerifiedCode(env, t, Begun(TENANT, OWNER, purpose), CodeText(env, step), 30 * step) == CheckedAt(env, purpose, step)
  {
    var th := Begun(TENANT, OWNER, purpose);
    assert Checks(t, th, FACTOR);
    assert FactorFor(t, th) == Some(FACTOR);
    CodeForNumber(env.code(FACTOR, step));
    var codeFor: int -> nat := s => env.code(FACTOR, s);
    assert Acceptable(codeFor, Number(CodeText(env, step)), 30 * step, t.factors[FACTOR].lastStep, step);
    assert Verified(codeFor, CodeText(env, step), 30 * step, t.factors[FACTOR].lastStep) == Ok(step);
  }

  lemma ProvesEnrolment(env: Env)
    ensures ProvedStep(OPENED, 1, CheckedAt(env, ENROLMENT, 10))
         == Effect(ENROLLED, Proved(TENANT, OWNER, ENROLMENT, 1), Some(ProofOf(env, 10)))
  {
    var done := ActivateFactor(OPENED, TENANT, OWNER, FACTOR, 10);
    assert OPENED.factors[FACTOR := Factor(TENANT, OWNER, ActiveFactor, Some(10))] == ENROLLED.factors;
    assert OPENED.accounts[OWNER := ENROLLING.(state := Active)] == ENROLLED.accounts;
    assert done.tables == ENROLLED && done.answer.Ok?;
  }

  const NEW_SESSION := NewSession(TENANT, OWNER, FAMILY, 8, SESSION, 60, 70, 200, 100)

  lemma IssuesSession()
    ensures IssuedSession(ENROLLED, Cleared(TENANT, OWNER, ENROLMENT, 1), NEW_SESSION, 0) == Effect(SIGNED_IN, Finished, Some(ENTRY2))
  {
    assert EMPTY.families[FAMILY := Family(TENANT, OWNER, None)] == SIGNED_IN.families;
    assert EMPTY.credentials[8 := Credential(TENANT, OWNER, FAMILY, 60, 200, None, None)] == SIGNED_IN.credentials;
    assert EMPTY.sessions[SESSION := Session(TENANT, OWNER, FAMILY, 70, 100, None)] == SIGNED_IN.sessions;
    assert CreateSession(ENROLLED, NEW_SESSION, 0) == Done(SIGNED_IN, Ok(FAMILY));
  }

  /** A thread that stands before its factor check passes it with the code of the current step. */
  lemma PassesCheck(env: Env, t: Tables, log: seq<Entry>, k: nat, purpose: Purpose, status: FactorStatus, step: nat)
    requires Comes(env, t, log, k, Begun(TENANT, OWNER, purpose))
    requires status == if purpose.ForEnrolment? then PendingFactor else ActiveFactor
    requires t.factors.Keys == {FACTOR} && HasFactor(t, FACTOR, TENANT, OWNER, status)
    requires purpose.ForEnrolment? ==> purpose.factor == FACTOR
    requires t.factors[FACTOR].lastStep.None? || t.factors[FACTOR].lastStep.value < step
    requires env.code(FACTOR, step) < 1_000_000
    ensures Comes(env, t, log, k, CheckedAt(env, purpose, step))
  {
    VerifiesCurrent(env, t, purpose, status, step);
    Passes(env, t, log, k, Begun(TENANT, OWNER, purpose), Verify(CodeText(env, step), 30 * step), CheckedAt(env, purpose, step));
  }

  lemma PassesClear(env: Env, t: Tables, log: seq<Entry>, k: nat, purpose: Purpose, proof: nat)
    requires Comes(env, t, log, k, Proved(TENANT, OWNER, purpose, proof))
    requires OWNER in t.accounts && t.accounts[OWNER] == ENROLLING.(state := Active)
    ensures Comes(env, t, log, k, Cleared(TENANT, OWNER, purpose, proof))
  {
    Passes(env, t, log, k, Proved(TENANT, OWNER, purpose, proof), Clear, Cleared(TENANT, OWNER, purpose, proof));
  }

  function Log2(env: Env): seq<Entry> {
    [ENTRY0, ProofOf(env, 10)]
  }

  function Log3(env: Env): seq<Entry> {
    [ENTRY0, ProofOf(env, 10), ENTRY2]
  }

  lemma ComesToEnrol(env: Env)
    ensures Comes(env, OPENED, [ENTRY0], 0, Begun(TENANT, OWNER, ENROLMENT))
  {
    Prepared(env);
    OpensEnrolment();
    Starts(env, World(INVITED, map[], []), 0, OpenEnrolment(40, 50, 0), Effect(OPENED, Begun(TENANT, OWNER, ENROLMENT), Some(ENTRY0)));
    assert [] + [ENTRY0] == [ENTRY0];
  }

  lemma ComesEnrolled(env: Env)
    requires env.code(FACTOR, 10) < 1_000_000
    ensures Comes(env, ENROLLED, Log2(env), 0, Proved(TENANT, OWNER, ENROLMENT, 1))
  {
    ComesToEnrol(env);
    PassesCheck(env, OPENED, [ENTRY0], 0, ENROLMENT, PendingFactor, 10);
    ProvesEnrolment(env);
    Moves(env, OPENED, [ENTRY0], 0, CheckedAt(env, ENROLMENT, 10), Prove,
          Effect(ENROLLED, Proved(TENANT, OWNER, ENROLMENT, 1), Some(ProofOf(env, 10))));
    assert [ENTRY0] + [ProofOf(env, 10)] == Log2(env);
  }

  /** The owner enrols a factor and receives a first session. */
  lemma ComesSignedIn(env: Env)
    requires env.code(FACTOR, 10) < 1_000_000
    ensures Comes(env, SIGNED_IN, Log3(env), 0, Finished)
  {
    ComesEnrolled(env);
    PassesClear(env, ENROLLED, Log2(env), 0, ENROLMENT, 1);
    IssuesSession();
    Moves(env, ENROLLED, Log2(env), 0, Cleared(TENANT, OWNER, ENROLMENT, 1), IssueSession(NEW_SESSION, 0),
          Effect(SIGNED_IN, Finished, Some(ENTRY2)));
    assert Log2(env) + [ENTRY2] == Log3(env);
  }

  // ---- Step-up ----

  const STEP_UP := ForStepUp(FAMILY, TARGET)
  const SIGNED := Signed(TENANT, OWNER, FAMILY)
  const NEW_GRANT := NewGrant(GRANT, TENANT, OWNER, FAMILY, 0, 80, 100)

  lemma SignsIn(t: Tables, at: nat)
    requires t.sessions == SIGNED_IN.sessions && t.families == SIGNED_IN.families && t.accounts == SIGNED_IN.accounts
    ensures Opened(t, at, SignIn(SESSION, 0)) == Effect(t, SIGNED, None)
  {
  }

  lemma OwnerMayManage(t: Tables, stepUp: bool)
    requires t.roles == ROLES
    ensures ActorOf(t, SIGNED, stepUp) == Actor(TENANT, OWNER, {Owner}, stepUp, Active)
    ensures ActorOf(t, SIGNED, stepUp).May(ManageRoles)
  {
    assert RolesOf(t, TENANT, OWNER) == {Owner};
    ManagingRolesTakesAnOwner(Actor(TENANT, OWNER, {Owner}, stepUp, Active));
  }

  lemma ProvesStepUp(env: Env)
    ensures ProvedStep(SIGNED_IN, 3, CheckedAt(env, STEP_UP, 11))
         == Effect(STEPPED_UP, Proved(TENANT, OWNER, STEP_UP, 3), Some(ProofOf(env, 11)))
  {
    var done := ConsumeStep(SIGNED_IN, TENANT, OWNER, FACTOR, 11);
    assert SIGNED_IN.factors[FACTOR := Factor(TENANT, OWNER, ActiveFactor, Some(11))] == STEPPED_UP.factors;
    assert done.tables == STEPPED_UP && done.answer.Ok?;
  }

  lemma IssuesGrant(env: Env)
    ensures IssuedGrant(env, STEPPED_UP, Cleared(TENANT, OWNER, STEP_UP, 3), NEW_GRANT, 0)
         == Effect(Granted(env), Finished, Some(ENTRY4))
  {
    var bound := NEW_GRANT.(target := env.Binding(TARGET));
    assert EMPTY.grants[GRANT := GrantRow(env)] == Granted(env).grants;
    assert CreateGrant(STEPPED_UP, bound, 0) == Done(Granted(env), Ok(GRANT));
  }

  function Log4(env: Env): seq<Entry> {
    [ENTRY0, ProofOf(env, 10), ENTRY2, ProofOf(env, 11)]
  }

  function Log5(env: Env): seq<Entry> {
    [ENTRY0, ProofOf(env, 10), ENTRY2, ProofOf(env, 11), ENTRY4]
  }

  lemma ComesSigned(env: Env, t: Tables, log: seq<Entry>, k: nat, th: Thread)
    requires Comes(env, t, log, k, th)
    requires t.sessions == SIGNED_IN.sessions && t.families == SIGNED_IN.families && t.accounts == SIGNED_IN.accounts
    ensures Comes(env, t, log, k + 1, SIGNED)
  {
    SignsIn(t, |log|);
    Follows(env, t, log, k, th, SignIn(SESSION, 0), Effect(t, SIGNED, None));
    assert log + [] == log;
  }

  lemma ComesToStepUp(env: Env)
    requires env.code(FACTOR, 10) < 1_000_000
    ensures Comes(env, SIGNED_IN, Log3(env), 1, Begun(TENANT, OWNER, STEP_UP))
  {
    ComesSignedIn(env);
    ComesSigned(env, SIGNED_IN, Log3(env), 0, Finished);
    OwnerMayManage(SIGNED_IN, false);
    Passes(env, SIGNED_IN, Log3(env), 1, SIGNED, AskStepUp(TARGET), Begun(TENANT, OWNER, STEP_UP));
  }

  lemma ComesSteppedUp(env: Env)
    requires env.code(FACTOR, 10) < 1_000_000 && env.code(FACTOR, 11) < 1_000_000
    ensures Comes(env, STEPPED_UP, Log4(env), 1, Proved(TENANT, OWNER, STEP_UP, 3))
  {
    ComesToStepUp(env);
    PassesCheck(env, SIGNED_IN, Log3(env), 1, STEP_UP, ActiveFactor, 11);
    ProvesStepUp(env);
    Moves(env, SIGNED_IN, Log3(env), 1, CheckedAt(env, STEP_UP, 11), Prove,
          Effect(STEPPED_UP, Proved(TENANT, OWNER, STEP_UP, 3), Some(ProofOf(env, 11))));
    assert Log3(env) + [ProofOf(env, 11)] == Log4(env);
  }

  /** The signed-in owner passes another code and receives a grant. */
  lemma ComesGranted(env: Env)
    requires env.code(FACTOR, 10) < 1_000_000 && env.code(FACTOR, 11) < 1_000_000
    ensures Comes(env, Granted(env), Log5(env), 1, Finished)
  {
    ComesSteppedUp(env);
    PassesClear(env, STEPPED_UP, Log4(env), 1, STEP_UP, 3);
    IssuesGrant(env);
    Moves(env, STEPPED_UP, Log4(env), 1, Cleared(TENANT, OWNER, STEP_UP, 3), IssueGrant(NEW_GRANT, 0),
          Effect(Granted(env), Finished, Some(ENTRY4)));
    assert Log4(env) + [ENTRY4] == Log5(env);
  }

  // ---- The role change ----

  const COMMAND := ChangeRole(TENANT, GUEST, Operator, true, Actor(TENANT, OWNER, {Owner}, true, Active))
  const ENTRY5 := RoleChanged(GRANT, FAMILY, COMMAND)

  lemma GivesCommand(t: Tables)
    requires t.roles == ROLES
    ensures GivenCommand(t, SIGNED, TARGET) == Commanded(COMMAND, FAMILY)
  {
    OwnerMayManage(t, false);
    OwnerMayManage(t, true);
    ChangingTakesAnOwner(COMMAND);
  }

  lemma UsesGrant(env: Env)
    ensures RedeemedGrant(env, Granted(env), Commanded(COMMAND, FAMILY), 80, 0)
         == Effect(Used(env), Redeemed(COMMAND, FAMILY, GRANT), None)
  {
    var t, target := Granted(env), env.Binding(TARGET);
    assert TargetOf(COMMAND) == TARGET;
    assert Redeems(t, GRANT, TENANT, OWNER, FAMILY, target, 80, 0);
    var done := ConsumeGrant(t, TENANT, OWNER, FAMILY, target, 80, 0);
    assert t.grants[GRANT := GrantRow(env).(consumedAt := Some(0))] == Used(env).grants;
    assert done == Done(Used(env), Ok(Some(GRANT)));
  }

  lemma ChangesRole(env: Env)
    ensures CommittedRole(Used(env), Redeemed(COMMAND, FAMILY, GRANT)) == Effect(Promoted(env), Finished, Some(ENTRY5))
  {
    ChangingTakesAnOwner(COMMAND);
    assert ROLES + {(TENANT, GUEST, Operator)} == Promoted(env).roles;
  }

  lemma ComesCommanded(env: Env)
    requires env.code(FACTOR, 10) < 1_000_000 && env.code(FACTOR, 11) < 1_000_000
    ensures Comes(env, Granted(env), Log5(env), 2, Commanded(COMMAND, FAMILY))
  {
    ComesGranted(env);
    ComesSigned(env, Granted(env), Log5(env), 1, Finished);
    GivesCommand(Granted(env));
    Passes(env, Granted(env), Log5(env), 2, SIGNED, Command(TARGET), Commanded(COMMAND, FAMILY));
  }

  lemma ComesRedeemed(env: Env)
    requires env.code(FACTOR, 10) < 1_000_000 && env.code(FACTOR, 11) < 1_000_000
    ensures Comes(env, Used(env), Log5(env), 2, Redeemed(COMMAND, FAMILY, GRANT))
  {
    ComesCommanded(env);
    UsesGrant(env);
    Moves(env, Granted(env), Log5(env), 2, Commanded(COMMAND, FAMILY), RedeemWith(80, 0),
          Effect(Used(env), Redeemed(COMMAND, FAMILY, GRANT), None));
    assert Log5(env) + [] == Log5(env);
  }

  lemma ComesPromoted(env: Env)
    requires env.code(FACTOR, 10) < 1_000_000 && env.code(FACTOR, 11) < 1_000_000
    ensures Comes(env, Promoted(env), Log5(env) + [ENTRY5], 2, Finished)
  {
    ComesRedeemed(env);
    ChangesRole(env);
    Moves(env, Used(env), Log5(env), 2, Redeemed(COMMAND, FAMILY, GRANT), Commit, Effect(Promoted(env), Finished, Some(ENTRY5)));
  }

  /** What a whole run can bring about: a session and a grant, each on its own code, and the change the grant pays for. */
  ghost predicate Brings(w: World) {
    && |w.log| == 6
    && w.log[0].LoginOpened? && w.log[1].Proof? && w.log[2].SessionIssued? && w.log[2].opening == 0 && w.log[2].proof == 1
    && w.log[3].Proof? && w.log[4].GrantIssued? && w.log[4].proof == 3
    && w.log[5].RoleChanged? && w.log[5].grant == w.log[4].grant
    && w.log[5].command.target != w.log[5].command.actor.account && Operator in RolesOf(w.tables, TENANT, w.log[5].command.target)
  }

  lemma PromotionBrings(env: Env, w: World)
    requires Stands(w, Promoted(env), Log5(env) + [ENTRY5], 2, Finished)
    ensures Brings(w)
  {
  }

  /** Whatever codes the factor shows at steps 10 and 11, a run on those codes brings the role change about. */
  lemma PrivilegesAreReachable(env: Env) returns (worlds: seq<World>, events: seq<Event>)
    requires env.code(FACTOR, 10) < 1_000_000 && env.code(FACTOR, 11) < 1_000_000
    ensures Handlers.IsRun(env, worlds, events) && Brings(worlds[|events|])
  {
    ComesPromoted(env);
    var w :| Reachable(env, w) && Stands(w, Promoted(env), Log5(env) + [ENTRY5], 2, Finished);
    PromotionBrings(env, w);
    worlds, events :| Handlers.IsRun(env, worlds, events) && worlds[|events|] == w;
  }
}
