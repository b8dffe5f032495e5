/** The login, step-up and role-change handlers as concurrent threads over the authority's tables. */
module Handlers {
  import opened Results
  import opened Bytes
  import opened AuthorityTables
  import opened Administration
  import opened AuthorityRuns
  import opened AuthorityTheorems
  import opened Totp

  // ---- What a step-up grant is bound to ----

  /** The exact role assignment a grant pays for. */
  datatype RoleTarget = RoleTarget(account: Uuid, role: Role, grant: bool)

  function RoleText(role: Role): string {
    match role
    case Owner => "owner"
    case Admin => "admin"
    case Operator => "operator"
    case Auditor => "auditor"
    case Member => "member"
  }

  const TARGET_TAG := "fcp-fabric-step-up-target-v1\0change-account-role\0"

  /** The bytes hashed into a grant's target digest. */
  function TargetBytes(target: RoleTarget): seq<byte> {
    Ascii(TARGET_TAG) + BigEndian(16, target.account) + [if target.grant then 1 else 0] + Ascii(RoleText(target.role))
  }

  lemma RoleTextInjective(a: Role, b: Role)
    requires Ascii(RoleText(a)) == Ascii(RoleText(b))
    ensures a == b
  {
    assert |RoleText(a)| == |RoleText(b)|;
    assert Ascii(RoleText(a))[0] == Ascii(RoleText(b))[0];
  }

  lemma TargetBytesInjective(a: RoleTarget, b: RoleTarget)
    requires TargetBytes(a) == TargetBytes(b)
    ensures a == b
  {
    var n := |Ascii(TARGET_TAG)|;
    var s, r := TargetBytes(a), TargetBytes(b);
    assert s[n..n + 16] == BigEndian(16, a.account) && r[n..n + 16] == BigEndian(16, b.account);
    assert s[n + 16] == (if a.grant then 1 else 0) && r[n + 16] == (if b.grant then 1 else 0);
    assert s[n + 17..] == Ascii(RoleText(a.role)) && r[n + 17..] == Ascii(RoleText(b.role));
    WideWidths();
    BigEndianInjective(16, a.account, b.account);
    RoleTextInjective(a.role, b.role);
  }

  /** The hash and the authenticator codes, as parameters. */
  datatype Env = Env(sha: seq<byte> -> Digest, code: (Uuid, int) -> nat) {
    function Binding(target: RoleTarget): Digest {
      sha(TargetBytes(target))
    }

    /** No two role targets hash alike. */
    ghost predicate CollisionFree() {
      forall a, b :: Binding(a) == Binding(b) ==> TargetBytes(a) == TargetBytes(b)
    }
  }

  // ---- Threads, the log and the world ----

  /** What a code is asked for; `opening` is the log position of the login transaction that was consumed for it. */
  datatype Purpose =
    | ForLogin(opening: nat)
    | ForEnrolment(opening: nat, factor: Uuid)
    | ForStepUp(family: Uuid, target: RoleTarget)

  /** Where one HTTP request stands, with what it has read so far. */
  datatype Thread =
    | Signed(tenant: Uuid, account: Uuid, family: Uuid)
    | Begun(tenant: Uuid, account: Uuid, purpose: Purpose)
    | Checked(tenant: Uuid, account: Uuid, purpose: Purpose, factor: Uuid, step: int, seconds: int, code: nat)
    | Proved(tenant: Uuid, account: Uuid, purpose: Purpose, proof: nat)
    | Cleared(tenant: Uuid, account: Uuid, purpose: Purpose, proof: nat)
    | Commanded(command: ChangeRole, family: Uuid)
    | Redeemed(command: ChangeRole, family: Uuid, grant: Uuid)
    | Finished

  /** What has been committed: login transactions and codes, and what was issued or changed on the strength of them. */
  datatype Entry =
    | LoginOpened(login: Uuid, stage: Stage, tenant: Uuid, account: Uuid)
    | Proof(tenant: Uuid, account: Uuid, factor: Uuid, step: int, seconds: int, code: nat)
    | SessionIssued(opening: nat, proof: nat, family: Uuid)
    | GrantIssued(proof: nat, grant: Uuid, family: Uuid, target: RoleTarget)
    | RoleChanged(grant: Uuid, family: Uuid, command: ChangeRole)

  datatype World = World(tables: Tables, threads: map<nat, Thread>, log: seq<Entry>)

  datatype Opening =
    | OpenChallenge(digest: Digest, binding: Digest, now: Instant)
    | OpenEnrolment(digest: Digest, binding: Digest, now: Instant)
    | SignIn(session: Uuid, now: Instant)

  datatype Move =
    | AskStepUp(target: RoleTarget)
    | Verify(code: string, seconds: int)
    | Prove
    | Clear
    | IssueSession(session: NewSession, now: Instant)
    | IssueGrant(grant: NewGrant, now: Instant)
    | Command(target: RoleTarget)
    | RedeemWith(digest: Digest, now: Instant)
    | Commit
    | Abort

  datatype Event =
    | Background(request: Request)
    | Start(thread: nat, opening: Opening)
    | Continue(thread: nat, move: Move)

  /** The effect of one store access of one thread. */
  datatype Effect = Effect(tables: Tables, thread: Thread, entry: Option<Entry>)

  // ---- Each store access ----

  function OpenedEntry(l: OpenedLogin): Entry {
    LoginOpened(l.id, l.row.stage, l.row.tenant, l.row.account)
  }

  /** The first store access of a request; an entry it makes will stand at position `at` of the log. */
  ghost function Opened(t: Tables, at: nat, o: Opening): Effect {
    match o
    case OpenChallenge(digest, binding, now) =>
      var done := ConsumeLogin(t, digest, MfaChallenge, binding, now);
      (match done.answer
       case Ok(l) => Effect(done.tables, Begun(l.row.tenant, l.row.account, ForLogin(at)), Some(OpenedEntry(l)))
       case Err(_) => Effect(done.tables, Finished, None))
    case OpenEnrolment(digest, binding, now) =>
      var done := ConsumeLogin(t, digest, MfaEnrollment, binding, now);
      (match done.answer
       case Ok(l) =>
         var th := if l.row.factor.Some? then Begun(l.row.tenant, l.row.account, ForEnrolment(at, l.row.factor.value)) else Finished;
         Effect(done.tables, th, Some(OpenedEntry(l)))
       case Err(_) => Effect(done.tables, Finished, None))
    case SignIn(session, now) =>
      Effect(t, if Authenticates(t, session, now) then
                  Signed(t.sessions[session].tenant, t.sessions[session].account, t.sessions[session].family)
                else Finished, None)
  }

  ghost function ActorOf(t: Tables, th: Thread, stepUp: bool): Actor
    requires th.Signed?
  {
    Actor(th.tenant, th.account, RolesOf(t, th.tenant, th.account), stepUp, Active)
  }

  ghost function AskedStepUp(t: Tables, th: Thread, target: RoleTarget): Thread
    requires th.Signed?
  {
    if ActorOf(t, th, false).May(ManageRoles) then Begun(th.tenant, th.account, ForStepUp(th.family, target)) else Finished
  }

  /** The pending factor of an enrolment, or the active factor of the account. */
  predicate Checks(t: Tables, th: Thread, f: Uuid)
    requires th.Begun?
  {
    if th.purpose.ForEnrolment? then f == th.purpose.factor && HasFactor(t, f, th.tenant, th.account, PendingFactor)
    else HasFactor(t, f, th.tenant, th.account, ActiveFactor)
  }

  /** The factor row the code is checked against. */
  ghost function FactorFor(t: Tables, th: Thread): (r: Option<Uuid>)
    requires th.Begun?
    ensures if r.Some? then Checks(t, th, r.value) else forall f :: !Checks(t, th, f)
  {
    if exists f :: Checks(t, th, f) then
      var f :| Checks(t, th, f); Some(f)
    else None
  }

  ghost function VerifiedCode(env: Env, t: Tables, th: Thread, code: string, seconds: int): Thread
    requires th.Begun?
  {
    match FactorFor(t, th)
    case None => Finished
    case Some(f) =>
      match Verified(step => env.code(f, step), code, seconds, t.factors[f].lastStep)
      case Ok(step) => Checked(th.tenant, th.account, th.purpose, f, step, seconds, Number(code))
      case Err(_) => Finished
  }

  /** Records the step; the entry will stand at position `at` of the log. */
  ghost function ProvedStep(t: Tables, at: nat, th: Thread): Effect
    requires th.Checked?
  {
    var done := if th.purpose.ForEnrolment? then ActivateFactor(t, th.tenant, th.account, th.factor, th.step)
                else ConsumeStep(t, th.tenant, th.account, th.factor, th.step);
    if done.answer.Ok? then
      Effect(done.tables, Proved(th.tenant, th.account, th.purpose, at),
             Some(Proof(th.tenant, th.account, th.factor, th.step, th.seconds, th.code)))
    else Effect(done.tables, Finished, None)
  }

  ghost function ClearedAccount(t: Tables, th: Thread): Thread
    requires th.Proved?
  {
    if t.OwnsIn(th.tenant, th.account, Active) then Cleared(th.tenant, th.account, th.purpose, th.proof) else Finished
  }

  ghost function IssuedSession(t: Tables, th: Thread, n: NewSession, now: Instant): Effect
    requires th.Cleared? && !th.purpose.ForStepUp?
  {
    var done := CreateSession(t, n.(tenant := th.tenant, account := th.account), now);
    Effect(done.tables, Finished,
           if done.answer.Ok? then Some(SessionIssued(th.purpose.opening, th.proof, done.answer.value)) else None)
  }

  ghost function IssuedGrant(env: Env, t: Tables, th: Thread, n: NewGrant, now: Instant): Effect
    requires th.Cleared? && th.purpose.ForStepUp?
  {
    var done := CreateGrant(t, n.(tenant := th.tenant, account := th.account, family := th.purpose.family,
                                  target := env.Binding(th.purpose.target)), now);
    Effect(done.tables, Finished,
           if done.answer.Ok? then Some(GrantIssued(th.proof, done.answer.value, th.purpose.family, th.purpose.target)) else None)
  }

  ghost function CommandFor(t: Tables, th: Thread, target: RoleTarget): ChangeRole
    requires th.Signed?
  {
    ChangeRole(th.tenant, target.account, target.role, target.grant, ActorOf(t, th, true))
  }

  ghost function GivenCommand(t: Tables, th: Thread, target: RoleTarget): Thread
    requires th.Signed?
  {
    if ActorOf(t, th, false).May(ManageRoles) && CommandFor(t, th, target).Valid() then
      Commanded(CommandFor(t, th, target), th.family)
    else Finished
  }

  function TargetOf(command: ChangeRole): RoleTarget {
    RoleTarget(command.target, command.role, command.grant)
  }

  ghost function RedeemedGrant(env: Env, t: Tables, th: Thread, digest: Digest, now: Instant): Effect
    requires th.Commanded?
  {
    var done := ConsumeGrant(t, th.command.tenant, th.command.actor.account, th.family,
                             env.Binding(TargetOf(th.command)), digest, now);
    Effect(done.tables,
           if done.answer.Ok? && done.answer.value.Some? then Redeemed(th.command, th.family, done.answer.value.value) else Finished,
           None)
  }

  ghost function CommittedRole(t: Tables, th: Thread): Effect
    requires th.Redeemed?
  {
    var done := ApplyRole(t, th.command);
    Effect(done.tables, Finished, if done.answer.Ok? then Some(RoleChanged(th.grant, th.family, th.command)) else None)
  }

  ghost function Moved(env: Env, t: Tables, at: nat, th: Thread, m: Move): Effect {
    match (th, m)
    case (Signed(_, _, _), AskStepUp(target)) => Effect(t, AskedStepUp(t, th, target), None)
    case (Signed(_, _, _), Command(target)) => Effect(t, GivenCommand(t, th, target), None)
    case (Begun(_, _, _), Verify(code, seconds)) => Effect(t, VerifiedCode(env, t, th, code, seconds), None)
    case (Checked(_, _, _, _, _, _, _), Prove) => ProvedStep(t, at, th)
    case (Proved(_, _, _, _), Clear) => Effect(t, ClearedAccount(t, th), None)
    case (Cleared(_, _, purpose, _), IssueSession(n, now)) =>
      if purpose.ForStepUp? then Effect(t, th, None) else IssuedSession(t, th, n, now)
    case (Cleared(_, _, purpose, _), IssueGrant(n, now)) =>
      if purpose.ForStepUp? then IssuedGrant(env, t, th, n, now) else Effect(t, th, None)
    case (Commanded(_, _), RedeemWith(digest, now)) => RedeemedGrant(env, t, th, digest, now)
    case (Redeemed(_, _, _), Commit) => CommittedRole(t, th)
    case (_, Abort) => Effect(t, Finished, None)
    case _ => Effect(t, th, None)
  }

  /** Requests of other endpoints: none of them accepts a code, touches a grant or changes a role. */
  predicate Elsewhere(r: Request) {
    match r
    case OnAccounts(q) => !q.Change?
    case OnFactors(q) => q.CreatePending?
    case OnGrants(_) => false
    case _ => true
  }

  function Logged(log: seq<Entry>, x: Effect): seq<Entry> {
    log + if x.entry.Some? then [x.entry.value] else []
  }

  /** The world after thread `k` has had this effect. */
  function Applied(w: World, k: nat, x: Effect): World {
    World(x.tables, w.threads[k := x.thread], Logged(w.log, x))
  }

  ghost function Next(env: Env, w: World, e: Event): World {
    match e
    case Background(r) => if Elsewhere(r) then w.(tables := Perform(w.tables, r)) else w
    case Start(k, o) => if k in w.threads then w else Applied(w, k, Opened(w.tables, |w.log|, o))
    case Continue(k, m) => if k in w.threads then Applied(w, k, Moved(env, w.tables, |w.log|, w.threads[k], m)) else w
  }

  ghost predicate IsRun(env: Env, worlds: seq<World>, events: seq<Event>) {
    && |worlds| == |events| + 1
    && worlds[0] == World(EMPTY, map[], [])
    && forall i | 0 <= i < |events| :: worlds[i + 1] == Next(env, worlds[i], events[i])
  }
}
