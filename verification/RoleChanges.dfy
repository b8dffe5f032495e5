/** What commands do to accounts and roles, and that the log of paid role changes accounts for every role anyone holds. */
module RoleChanges {
  import opened Results
  import opened AuthorityTables
  import opened Administration
  import opened AuthorityRuns
  import opened Handlers
  import opened HandlerRuns

  // ---- A role change ----

  /** The command names another role than Owner, and its actor is an active Owner of the tenant with a step-up. */
  predicate Entitles(command: ChangeRole) {
    && command.actor.tenant == command.tenant && command.actor.state == Active && Owner in command.actor.roles
    && command.actor.stepUp && command.role != Owner
  }

  /** There is something to change: an account that lacks the role, or one that has it. */
  predicate Changes(t: Tables, command: ChangeRole) {
    var held := RolesOf(t, command.tenant, command.target);
    if command.grant then t.Owns(command.tenant, command.target) && command.role !in held else command.role in held
  }

  /** The roles of one account after a command. */
  function RolesAfter(t: Tables, command: ChangeRole, tenant: Uuid, account: Uuid): set<Role> {
    var held := RolesOf(t, tenant, account);
    if tenant != command.tenant || account != command.target then held
    else if command.grant then held + {command.role}
    else held - {command.role}
  }

  /**
   A role change succeeds exactly when its actor is entitled to it and there is something to change. It then gives the
   target the role or takes it away, and nobody else's roles and no other table change; a refused one changes nothing.
   */
  lemma RoleChangeExactly(t: Tables, command: ChangeRole)
    ensures var done := ApplyRole(t, command);
            && (done.answer.Ok? <==> Entitles(command) && Changes(t, command))
            && done.tables == t.(roles := done.tables.roles)
            && (done.answer.Err? ==> done.tables == t)
            && (done.answer.Ok? ==> forall tenant, account ::
                  RolesOf(done.tables, tenant, account) == RolesAfter(t, command, tenant, account))
  {
    ChangingTakesAnOwner(command);
    var done := ApplyRole(t, command);
    if done.answer.Ok? {
      forall tenant, account
        ensures RolesOf(done.tables, tenant, account) == RolesAfter(t, command, tenant, account)
      {
      }
    }
  }

  // ---- New accounts ----

  /** Only accounts have roles. */
  ghost predicate RolesOwned(t: Tables) {
    forall row | row in t.roles :: t.Owns(row.0, row.1)
  }

  /** The account is new, enrolling, and has this one role; every other account is what it was. */
  ghost predicate Adds(t: Tables, t': Tables, tenant: Uuid, account: Uuid, localpart: string, role: Role) {
    && account !in t.accounts && t'.accounts == t.accounts[account := Account(tenant, localpart, MfaEnrollmentRequired)]
    && (forall u, a :: RolesOf(t', u, a) == if u == tenant && a == account then {role} else RolesOf(t, u, a))
  }

  lemma RowAdds(t: Tables, t': Tables, tenant: Uuid, account: Uuid, localpart: string, role: Role)
    requires RolesOwned(t) && account !in t.accounts && t'.roles == t.roles + {(tenant, account, role)}
    requires t'.accounts == t.accounts[account := Account(tenant, localpart, MfaEnrollmentRequired)]
    ensures Adds(t, t', tenant, account, localpart, role)
  {
    forall u, a
      ensures RolesOf(t', u, a) == if u == tenant && a == account then {role} else RolesOf(t, u, a)
    {
    }
  }

  /** A tenant is bootstrapped exactly when its id, domain and owner are unused, and then has one account, its Owner. */
  lemma BootstrapExactly(t: Tables, tenant: Uuid, owner: Uuid, domain: string, localpart: string)
    requires RolesOwned(t)
    ensures var done := Bootstrap(t, tenant, owner, domain, localpart);
            && (done.answer.Ok? <==> tenant !in t.tenants && owner !in t.accounts && forall u | u in t.tenants :: t.tenants[u] != domain)
            && (done.answer.Ok? ==> Adds(t, done.tables, tenant, owner, localpart, Owner) && done.tables.tenants == t.tenants[tenant := domain])
            && (done.answer.Err? ==> done.tables == t)
  {
    var done := Bootstrap(t, tenant, owner, domain, localpart);
    if done.answer.Ok? {
      RowAdds(t, done.tables, tenant, owner, localpart, Owner);
    }
  }

  /** An invitation is accepted exactly from an active Owner or Admin, for a lesser role and an unused name, and adds that account. */
  lemma InviteExactly(t: Tables, command: InviteAccount, id: Uuid)
    requires RolesOwned(t)
    ensures var done := Invite(t, command, id);
            && (done.answer.Ok? <==>
                  && command.actor.tenant == command.tenant && command.actor.state == Active
                  && (Owner in command.actor.roles || Admin in command.actor.roles)
                  && command.role in {Operator, Auditor, Member}
                  && command.tenant in t.tenants && id !in t.accounts
                  && forall a | t.Owns(command.tenant, a) :: t.accounts[a].localpart != command.localpart)
            && (done.answer.Ok? ==> Adds(t, done.tables, command.tenant, id, command.localpart, command.role))
            && (done.answer.Err? ==> done.tables == t)
  {
    InvitingTakesAuthority(command);
    var done := Invite(t, command, id);
    if done.answer.Ok? {
      RowAdds(t, done.tables, command.tenant, id, command.localpart, command.role);
    }
  }

  /** Every request keeps roles with accounts. */
  lemma PerformKeepsRolesOwned(t: Tables, r: Request)
    requires RolesOwned(t)
    ensures RolesOwned(Perform(t, r))
  {
    if r.OnAccounts? {
      AccountsKeepRolesOwned(t, r.accounts);
    } else {
      PerformKeepsAccounts(t, r);
      assert Perform(t, r).roles == t.roles;
    }
  }

  lemma AccountsKeepRolesOwned(t: Tables, q: AccountRequest)
    requires RolesOwned(t)
    ensures RolesOwned(PerformAccounts(t, q))
  {
    if q.Change? {
      ChangeKeepsRolesOwned(t, q.change);
    }
  }

  lemma ChangeKeepsRolesOwned(t: Tables, command: ChangeRole)
    requires RolesOwned(t)
    ensures RolesOwned(ApplyRole(t, command).tables)
  {
  }

  lemma {:induction false} RunRolesOwned(states: seq<Tables>, requests: seq<Request>, i: nat)
    requires AuthorityRuns.IsRun(states, requests) && i < |states|
    ensures RolesOwned(states[i])
  {
    if i > 0 {
      RunRolesOwned(states, requests, i - 1);
      PerformKeepsRolesOwned(states[i - 1], requests[i - 1]);
    }
  }

  // ---- Roles and the log of the handlers ----

  /** The entry changes this role of this account. */
  predicate Concerns(entry: Entry, tenant: Uuid, account: Uuid, role: Role) {
    entry.RoleChanged? && entry.command.tenant == tenant && entry.command.target == account && entry.command.role == role
  }

  /** Whether the account has the role, going by the last entry that concerns it. */
  function HeldAfter(held: bool, log: seq<Entry>, tenant: Uuid, account: Uuid, role: Role): bool {
    if log == [] then held
    else if Concerns(log[|log| - 1], tenant, account, role) then log[|log| - 1].command.grant
    else HeldAfter(held, log[..|log| - 1], tenant, account, role)
  }

  lemma {:induction false} HeldAfterConcat(held: bool, a: seq<Entry>, b: seq<Entry>, tenant: Uuid, account: Uuid, role: Role)
    ensures HeldAfter(held, a + b, tenant, account, role)
         == HeldAfter(HeldAfter(held, a, tenant, account, role), b, tenant, account, role)
  {
    if b == [] {
      assert a + b == a;
    } else {
      assert (a + b)[..|a + b| - 1] == a + b[..|b| - 1];
      HeldAfterConcat(held, a, b[..|b| - 1], tenant, account, role);
    }
  }

  predicate HoldsRole(t: Tables, tenant: Uuid, account: Uuid, role: Role) {
    role in RolesOf(t, tenant, account)
  }

  /** The effect either leaves the roles alone and logs no role change, or is a logged role change. */
  ghost predicate RolesFollow(t: Tables, x: Effect) {
    || (x.tables.roles == t.roles && (x.entry.Some? ==> !x.entry.value.RoleChanged?))
    || (&& x.entry.Some? && x.entry.value.RoleChanged?
        && forall tenant, account ::
             RolesOf(x.tables, tenant, account) == RolesAfter(t, x.entry.value.command, tenant, account))
  }

  lemma OpenedFollows(t: Tables, at: nat, o: Opening)
    ensures RolesFollow(t, Opened(t, at, o)) && Opened(t, at, o).tables.accounts == t.accounts
  {
  }

  lemma CommittedFollows(t: Tables, th: Thread)
    requires th.Redeemed?
    ensures RolesFollow(t, CommittedRole(t, th)) && AccountsPersist(t.accounts, CommittedRole(t, th).tables.accounts)
  {
    RoleChangeExactly(t, th.command);
  }

  lemma ProvedFollows(t: Tables, at: nat, th: Thread)
    requires th.Checked?
    ensures RolesFollow(t, ProvedStep(t, at, th)) && AccountsPersist(t.accounts, ProvedStep(t, at, th).tables.accounts)
  {
  }

  lemma MovedFollows(env: Env, t: Tables, at: nat, th: Thread, m: Move)
    ensures RolesFollow(t, Moved(env, t, at, th, m)) && AccountsPersist(t.accounts, Moved(env, t, at, th, m).tables.accounts)
  {
    if th.Redeemed? && m.Commit? {
      CommittedFollows(t, th);
    } else if th.Checked? && m.Prove? {
      ProvedFollows(t, at, th);
    }
  }

  /** Requests of other endpoints leave the roles of every existing account alone. */
  lemma ElsewhereFollows(t: Tables, r: Request, tenant: Uuid, account: Uuid)
    requires Elsewhere(r) && t.Owns(tenant, account)
    ensures RolesOf(Perform(t, r), tenant, account) == RolesOf(t, tenant, account) && Perform(t, r).Owns(tenant, account)
  {
    PerformKeepsAccounts(t, r);
    if r.OnAccounts? {
      AccountsLeaveRoles(t, r.accounts, tenant, account);
    } else {
      assert Perform(t, r).roles == t.roles;
    }
  }

  lemma AccountsLeaveRoles(t: Tables, q: AccountRequest, tenant: Uuid, account: Uuid)
    requires !q.Change? && t.Owns(tenant, account)
    ensures RolesOf(PerformAccounts(t, q), tenant, account) == RolesOf(t, tenant, account)
  {
  }

  lemma EffectFollows(w: World, k: nat, x: Effect, tenant: Uuid, account: Uuid, role: Role)
    requires RolesFollow(w.tables, x) && AccountsPersist(w.tables.accounts, x.tables.accounts) && w.tables.Owns(tenant, account)
    ensures Follows(w, Applied(w, k, x), tenant, account, role)
  {
    var w' := Applied(w, k, x);
    assert w'.log[..|w.log|] == w.log;
    assert w'.log[|w.log|..] == if x.entry.Some? then [x.entry.value] else [];
  }

  /** The later world's log extends the earlier one's, and what was added says whether the account still holds the role. */
  ghost predicate Follows(w: World, w': World, tenant: Uuid, account: Uuid, role: Role) {
    && |w.log| <= |w'.log| && w'.log[..|w.log|] == w.log && w'.tables.Owns(tenant, account)
    && HoldsRole(w'.tables, tenant, account, role)
       == HeldAfter(HoldsRole(w.tables, tenant, account, role), w'.log[|w.log|..], tenant, account, role)
  }

  lemma NextFollows(env: Env, w: World, e: Event, tenant: Uuid, account: Uuid, role: Role)
    requires w.tables.Owns(tenant, account)
    ensures Follows(w, Next(env, w, e), tenant, account, role)
  {
    match e
    case Background(r) => if Elsewhere(r) { ElsewhereFollows(w.tables, r, tenant, account); }
    case Start(k, o) =>
      if k !in w.threads {
        OpenedFollows(w.tables, |w.log|, o);
        EffectFollows(w, k, Opened(w.tables, |w.log|, o), tenant, account, role);
      }
    case Continue(k, m) =>
      if k in w.threads {
        MovedFollows(env, w.tables, |w.log|, w.threads[k], m);
        EffectFollows(w, k, Moved(env, w.tables, |w.log|, w.threads[k], m), tenant, account, role);
      }
  }

  lemma FollowsThrough(a: World, b: World, c: World, tenant: Uuid, account: Uuid, role: Role)
    requires Follows(a, b, tenant, account, role) && Follows(b, c, tenant, account, role)
    ensures Follows(a, c, tenant, account, role)
  {
    assert c.log[..|a.log|] == c.log[..|b.log|][..|a.log|];
    assert c.log[|a.log|..] == b.log[|a.log|..] + c.log[|b.log|..];
    HeldAfterConcat(HoldsRole(a.tables, tenant, account, role), b.log[|a.log|..], c.log[|b.log|..], tenant, account, role);
  }

  /**
   From any state of a run to any later one, an existing account holds a role exactly if the last role change logged in
   between that concerns the two granted it, or if there is none and it held the role before. So roles come and go by
   logged changes only, and every logged change takes effect on its own target.
   */
  lemma {:induction false} RolesFollowTheLog(env: Env, worlds: seq<World>, events: seq<Event>, m: nat, n: nat, tenant: Uuid, account: Uuid, role: Role)
    requires Handlers.IsRun(env, worlds, events) && m <= n < |worlds| && worlds[m].tables.Owns(tenant, account)
    ensures Follows(worlds[m], worlds[n], tenant, account, role)
    decreases n
  {
    if m < n {
      RolesFollowTheLog(env, worlds, events, m, n - 1, tenant, account, role);
      NextFollows(env, worlds[n - 1], events[n - 1], tenant, account, role);
      FollowsThrough(worlds[m], worlds[n - 1], worlds[n], tenant, account, role);
    } else {
      assert worlds[m].log[|worlds[m].log|..] == [];
    }
  }

  /** Between the two states the command's target got the role or lost it, and nobody else's roles changed. */
  ghost predicate TakesEffect(t: Tables, t': Tables, command: ChangeRole) {
    && (HoldsRole(t', command.tenant, command.target, command.role) <==> command.grant)
    && (HoldsRole(t, command.tenant, command.target, command.role) <==> !command.grant)
    && forall tenant, account :: RolesOf(t', tenant, account) == RolesAfter(t, command, tenant, account)
  }

  lemma AppliedTakesEffect(t: Tables, command: ChangeRole)
    requires ApplyRole(t, command).answer.Ok?
    ensures TakesEffect(t, ApplyRole(t, command).tables, command)
  {
    RoleChangeExactly(t, command);
  }

  /** The step from `w` to `w'` logs this command. */
  predicate Logs(w: World, w': World, command: ChangeRole) {
    |w'.log| == |w.log| + 1 && w'.log[|w.log|].RoleChanged? && w'.log[|w.log|].command == command
  }

  lemma NextTakesEffect(env: Env, w: World, e: Event, w': World, command: ChangeRole)
    requires w' == Next(env, w, e) && Logs(w, w', command)
    ensures TakesEffect(w.tables, w'.tables, command)
  {
    LoggedIsApplied(env, w, e, w', command);
    AppliedTakesEffect(w.tables, command);
  }

  lemma LoggedIsApplied(env: Env, w: World, e: Event, w': World, command: ChangeRole)
    requires w' == Next(env, w, e) && Logs(w, w', command)
    ensures ApplyRole(w.tables, command).answer.Ok? && w'.tables == ApplyRole(w.tables, command).tables
  {
  }

  /** The moment a change is logged its target has the role if and only if the command granted it, just before it did not. */
  lemma ChangeTakesEffect(env: Env, worlds: seq<World>, events: seq<Event>, n: nat, command: ChangeRole)
    requires Handlers.IsRun(env, worlds, events) && n < |events| && Logs(worlds[n], worlds[n + 1], command)
    ensures TakesEffect(worlds[n].tables, worlds[n + 1].tables, command)
  {
    NextTakesEffect(env, worlds[n], events[n], worlds[n + 1], command);
  }

  lemma {:induction false} HeldByEntry(held: bool, log: seq<Entry>, tenant: Uuid, account: Uuid, role: Role) returns (i: nat)
    requires HeldAfter(held, log, tenant, account, role) != held
    ensures i < |log| && Concerns(log[i], tenant, account, role) && log[i].command.grant != held
  {
    i := |log| - 1;
    if !Concerns(log[i], tenant, account, role) {
      i := HeldByEntry(held, log[..i], tenant, account, role);
    }
  }

  /** Nobody gains or loses a role but by a logged change that was paid for, with a grant and a code of the tenant's Owner. */
  lemma RolesArePaidFor(env: Env, worlds: seq<World>, events: seq<Event>, m: nat, n: nat, tenant: Uuid, account: Uuid, role: Role)
    returns (a: nat, i: nat)
    requires env.CollisionFree() && Handlers.IsRun(env, worlds, events) && m <= n < |worlds|
    requires worlds[m].tables.Owns(tenant, account)
    requires HoldsRole(worlds[m].tables, tenant, account, role) != HoldsRole(worlds[n].tables, tenant, account, role)
    ensures |worlds[m].log| <= i < |worlds[n].log| && Concerns(worlds[n].log[i], tenant, account, role)
    ensures worlds[n].log[i].command.grant == HoldsRole(worlds[n].tables, tenant, account, role)
    ensures PaidFor(worlds[n].log, a, i)
  {
    RolesFollowTheLog(env, worlds, events, m, n, tenant, account, role);
    var start := |worlds[m].log|;
    i := HeldByEntry(HoldsRole(worlds[m].tables, tenant, account, role), worlds[n].log[start..], tenant, account, role);
    i := start + i;
    a := PaidRoleChange(env, worlds, events, n, i);
  }
}
