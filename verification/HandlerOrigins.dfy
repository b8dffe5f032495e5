/** Where each request comes from: no step-up and no role change without an authenticated session and an account still active. */
module HandlerOrigins {
  import opened Results
  import opened AuthorityTables
  import opened Administration
  import opened Handlers

  /** At `m` the thread signed in with a session of this owner and family that authenticated at the clock it read. */
  ghost predicate SignedInAt(worlds: seq<World>, events: seq<Event>, m: nat, k: nat, tenant: Uuid, account: Uuid, family: Uuid)
    requires |worlds| == |events| + 1
  {
    && m < |events| && events[m].Start? && events[m].thread == k && events[m].opening.SignIn?
    && var t, s := worlds[m].tables, events[m].opening.session;
       && Authenticates(t, s, events[m].opening.now)
       && t.sessions[s].tenant == tenant && t.sessions[s].account == account && t.sessions[s].family == family
  }

  ghost predicate SignedIn(worlds: seq<World>, events: seq<Event>, n: nat, k: nat, tenant: Uuid, account: Uuid, family: Uuid)
    requires |worlds| == |events| + 1
  {
    exists m: nat :: m < n && SignedInAt(worlds, events, m, k, tenant, account, family)
  }

  /** At `m` the thread read that the account is active. */
  ghost predicate ClearedAt(worlds: seq<World>, events: seq<Event>, m: nat, k: nat, tenant: Uuid, account: Uuid)
    requires |worlds| == |events| + 1
  {
    m < |events| && events[m] == Continue(k, Clear) && worlds[m].tables.OwnsIn(tenant, account, Active)
  }

  ghost predicate WasCleared(worlds: seq<World>, events: seq<Event>, n: nat, k: nat, tenant: Uuid, account: Uuid)
    requires |worlds| == |events| + 1
  {
    exists m: nat :: m < n && ClearedAt(worlds, events, m, k, tenant, account)
  }

  ghost predicate PurposeSignedIn(worlds: seq<World>, events: seq<Event>, n: nat, k: nat, tenant: Uuid, account: Uuid, purpose: Purpose)
    requires |worlds| == |events| + 1
  {
    purpose.ForStepUp? ==> SignedIn(worlds, events, n, k, tenant, account, purpose.family)
  }

  /** What lies behind a thread. */
  ghost predicate Origin(worlds: seq<World>, events: seq<Event>, n: nat, k: nat, th: Thread)
    requires |worlds| == |events| + 1
  {
    match th
    case Signed(tenant, account, family) => SignedIn(worlds, events, n, k, tenant, account, family)
    case Begun(tenant, account, purpose) => PurposeSignedIn(worlds, events, n, k, tenant, account, purpose)
    case Checked(tenant, account, purpose, _, _, _, _) => PurposeSignedIn(worlds, events, n, k, tenant, account, purpose)
    case Proved(tenant, account, purpose, _) => PurposeSignedIn(worlds, events, n, k, tenant, account, purpose)
    case Cleared(tenant, account, purpose, _) =>
      PurposeSignedIn(worlds, events, n, k, tenant, account, purpose) && WasCleared(worlds, events, n, k, tenant, account)
    case Commanded(command, family) => SignedIn(worlds, events, n, k, command.tenant, command.actor.account, family)
    case Redeemed(command, family, _) => SignedIn(worlds, events, n, k, command.tenant, command.actor.account, family)
    case Finished => true
  }

  lemma SignedInLasts(worlds: seq<World>, events: seq<Event>, n: nat, k: nat, tenant: Uuid, account: Uuid, family: Uuid)
    requires |worlds| == |events| + 1 && SignedIn(worlds, events, n, k, tenant, account, family)
    ensures SignedIn(worlds, events, n + 1, k, tenant, account, family)
  {
    var m: nat :| m < n && SignedInAt(worlds, events, m, k, tenant, account, family);
    assert m < n + 1;
  }

  lemma ClearedLasts(worlds: seq<World>, events: seq<Event>, n: nat, k: nat, tenant: Uuid, account: Uuid)
    requires |worlds| == |events| + 1 && WasCleared(worlds, events, n, k, tenant, account)
    ensures WasCleared(worlds, events, n + 1, k, tenant, account)
  {
    var m: nat :| m < n && ClearedAt(worlds, events, m, k, tenant, account);
    assert m < n + 1;
  }

  lemma OriginLasts(worlds: seq<World>, events: seq<Event>, n: nat, k: nat, th: Thread)
    requires |worlds| == |events| + 1 && Origin(worlds, events, n, k, th)
    ensures Origin(worlds, events, n + 1, k, th)
  {
    if th.Signed? {
      SignedInLasts(worlds, events, n, k, th.tenant, th.account, th.family);
    } else if th.Commanded? || th.Redeemed? {
      SignedInLasts(worlds, events, n, k, th.command.tenant, th.command.actor.account, th.family);
    } else if !th.Finished? {
      if th.purpose.ForStepUp? {
        SignedInLasts(worlds, events, n, k, th.tenant, th.account, th.purpose.family);
      }
      if th.Cleared? {
        ClearedLasts(worlds, events, n, k, th.tenant, th.account);
      }
    }
  }

  lemma OpenedOrigin(worlds: seq<World>, events: seq<Event>, n: nat, k: nat, o: Opening, at: nat)
    requires |worlds| == |events| + 1 && n < |events| && events[n] == Start(k, o)
    ensures Origin(worlds, events, n + 1, k, Opened(worlds[n].tables, at, o).thread)
  {
    var th := Opened(worlds[n].tables, at, o).thread;
    if th.Signed? {
      assert SignedInAt(worlds, events, n, k, th.tenant, th.account, th.family);
    }
  }

  /** The owner and the family a thread acts for stay what they were. */
  ghost predicate SameCause(th: Thread, th': Thread) {
    match th'
    case Signed(_, _, _) => th == th'
    case Begun(tenant, account, purpose) =>
      || (th.Begun? && th == th')
      || (th.Signed? && tenant == th.tenant && account == th.account && (purpose.ForStepUp? ==> purpose.family == th.family))
    case Checked(tenant, account, purpose, _, _, _, _) =>
      (th.Begun? || th.Checked?) && tenant == th.tenant && account == th.account && purpose == th.purpose
    case Proved(tenant, account, purpose, _) =>
      (th.Checked? || th.Proved?) && tenant == th.tenant && account == th.account && purpose == th.purpose
    case Cleared(tenant, account, purpose, _) =>
      (th.Proved? || th.Cleared?) && tenant == th.tenant && account == th.account && purpose == th.purpose
    case Commanded(command, family) =>
      || th == th'
      || (th.Signed? && command.tenant == th.tenant && command.actor.account == th.account && family == th.family)
    case Redeemed(command, family, _) => (th.Commanded? || th.Redeemed?) && th.command == command && th.family == family
    case Finished => true
  }

  lemma MovedCause(env: Env, t: Tables, at: nat, th: Thread, m: Move)
    ensures SameCause(th, Moved(env, t, at, th, m).thread)
    ensures Moved(env, t, at, th, m).thread.Cleared? && !th.Cleared? ==> m.Clear? && t.OwnsIn(th.tenant, th.account, Active)
  {
  }

  lemma MovedOrigin(env: Env, worlds: seq<World>, events: seq<Event>, n: nat, k: nat, m: Move, at: nat, th: Thread)
    requires |worlds| == |events| + 1 && n < |events| && events[n] == Continue(k, m) && Origin(worlds, events, n, k, th)
    ensures Origin(worlds, events, n + 1, k, Moved(env, worlds[n].tables, at, th, m).thread)
  {
    var th' := Moved(env, worlds[n].tables, at, th, m).thread;
    MovedCause(env, worlds[n].tables, at, th, m);
    OriginLasts(worlds, events, n, k, th);
    if th'.Cleared? && !th.Cleared? {
      assert ClearedAt(worlds, events, n, k, th'.tenant, th'.account);
    }
    CauseKeepsOrigin(worlds, events, n + 1, k, th, th');
  }

  lemma CauseKeepsOrigin(worlds: seq<World>, events: seq<Event>, n: nat, k: nat, th: Thread, th': Thread)
    requires |worlds| == |events| + 1 && Origin(worlds, events, n, k, th) && SameCause(th, th')
    requires th'.Cleared? ==> WasCleared(worlds, events, n, k, th'.tenant, th'.account)
    ensures Origin(worlds, events, n, k, th')
  {
  }

  /** In every state of every run each thread has its origin. */
  lemma {:induction false} ThreadsHaveOrigins(env: Env, worlds: seq<World>, events: seq<Event>, n: nat, k: nat)
    requires Handlers.IsRun(env, worlds, events) && n < |worlds| && k in worlds[n].threads
    ensures Origin(worlds, events, n, k, worlds[n].threads[k])
  {
    assert n > 0;
    var w, e := worlds[n - 1], events[n - 1];
    if k in w.threads {
      ThreadsHaveOrigins(env, worlds, events, n - 1, k);
    }
    StepKeepsOrigin(env, worlds, events, n - 1, k);
  }

  lemma StepKeepsOrigin(env: Env, worlds: seq<World>, events: seq<Event>, n: nat, k: nat)
    requires Handlers.IsRun(env, worlds, events) && n < |events| && k in worlds[n + 1].threads
    requires k in worlds[n].threads ==> Origin(worlds, events, n, k, worlds[n].threads[k])
    ensures Origin(worlds, events, n + 1, k, worlds[n + 1].threads[k])
  {
    var w, e := worlds[n], events[n];
    if k !in w.threads {
      OpenedOrigin(worlds, events, n, k, e.opening, |w.log|);
    } else if e.Continue? && e.thread == k {
      MovedOrigin(env, worlds, events, n, k, e.move, |w.log|, w.threads[k]);
    } else {
      OriginLasts(worlds, events, n, k, w.threads[k]);
    }
  }

  /** The step logs this entry. */
  predicate Adds(w: World, w': World, entry: Entry) {
    w'.log == w.log + [entry]
  }

  lemma LoggedByThread(env: Env, w: World, e: Event, entry: Entry)
    requires Adds(w, Next(env, w, e), entry) && (entry.GrantIssued? || entry.RoleChanged? || entry.SessionIssued?)
    ensures e.Continue? && e.thread in w.threads
    ensures var th := w.threads[e.thread];
            match entry
            case GrantIssued(_, grant, family, _) =>
              th.Cleared? && th.purpose.ForStepUp? && th.purpose.family == family
            case RoleChanged(_, family, command) => th.Redeemed? && th.family == family && th.command == command
            case SessionIssued(_, _, _) => th.Cleared? && !th.purpose.ForStepUp?
            case _ => true
  {
    assert Next(env, w, e).log[|w.log|] == entry;
  }

  /** A committed role change was asked for by a thread that had signed in, as its actor and in its family. */
  lemma RoleChangesAreSignedIn(env: Env, worlds: seq<World>, events: seq<Event>, n: nat, entry: Entry)
    requires Handlers.IsRun(env, worlds, events) && n < |events| && Adds(worlds[n], worlds[n + 1], entry) && entry.RoleChanged?
    ensures events[n].Continue?
    ensures SignedIn(worlds, events, n, events[n].thread, entry.command.tenant, entry.command.actor.account, entry.family)
  {
    LoggedByThread(env, worlds[n], events[n], entry);
    ThreadsHaveOrigins(env, worlds, events, n, events[n].thread);
  }

  /** A grant is issued to a thread that had signed in, in its family, after its account was read to be active. */
  lemma GrantsAreSignedIn(env: Env, worlds: seq<World>, events: seq<Event>, n: nat, entry: Entry)
    requires Handlers.IsRun(env, worlds, events) && n < |events| && Adds(worlds[n], worlds[n + 1], entry) && entry.GrantIssued?
    ensures events[n].Continue? && events[n].thread in worlds[n].threads && worlds[n].threads[events[n].thread].Cleared?
    ensures var th := worlds[n].threads[events[n].thread];
            && SignedIn(worlds, events, n, events[n].thread, th.tenant, th.account, entry.family)
            && WasCleared(worlds, events, n, events[n].thread, th.tenant, th.account)
  {
    LoggedByThread(env, worlds[n], events[n], entry);
    ThreadsHaveOrigins(env, worlds, events, n, events[n].thread);
  }

  /** A session is issued on a code only after its account was read to be active. */
  lemma SessionsAreCleared(env: Env, worlds: seq<World>, events: seq<Event>, n: nat, entry: Entry)
    requires Handlers.IsRun(env, worlds, events) && n < |events| && Adds(worlds[n], worlds[n + 1], entry) && entry.SessionIssued?
    ensures events[n].Continue? && events[n].thread in worlds[n].threads && worlds[n].threads[events[n].thread].Cleared?
    ensures var th := worlds[n].threads[events[n].thread];
            WasCleared(worlds, events, n, events[n].thread, th.tenant, th.account)
  {
    LoggedByThread(env, worlds[n], events[n], entry);
    ThreadsHaveOrigins(env, worlds, events, n, events[n].thread);
  }
}
