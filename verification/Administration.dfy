/** Roles, permissions and the account commands they guard. */
module Administration {
  import opened Results
  import opened AuthorityTables

  datatype Permission =
    | ManageTenant | ManageRoles | ManageAccounts | PublishConfiguration
    | ManageFederation | ReadAudit | ManageOwnSecurity | UseApplication

  predicate Grants(role: Role, permission: Permission) {
    match role
    case Owner => true
    case Admin => permission in {ManageAccounts, PublishConfiguration, ReadAudit, ManageOwnSecurity, UseApplication}
    case Operator => permission in {PublishConfiguration, ReadAudit, ManageOwnSecurity, UseApplication}
    case Auditor => permission in {ReadAudit, ManageOwnSecurity, UseApplication}
    case Member => permission in {ManageOwnSecurity, UseApplication}
  }

  /** The tenant-local roles of an account. */
  function RolesOf(t: Tables, tenant: Uuid, account: Uuid): set<Role> {
    set role | role in {Owner, Admin, Operator, Auditor, Member} && (tenant, account, role) in t.roles
  }

  /** An authenticated actor with the roles read for it. */
  datatype Actor = Actor(tenant: Uuid, account: Uuid, roles: set<Role>, stepUp: bool, state: AccountState) {
    predicate May(permission: Permission) {
      state == Active && exists role | role in roles :: Grants(role, permission)
    }
  }

  datatype InviteAccount = InviteAccount(tenant: Uuid, localpart: string, role: Role, actor: Actor) {
    predicate Valid() {
      actor.tenant == tenant && actor.May(ManageAccounts) && role != Owner && role != Admin
    }
  }

  datatype ChangeRole = ChangeRole(tenant: Uuid, target: Uuid, role: Role, grant: bool, actor: Actor) {
    predicate Valid() {
      actor.tenant == tenant && actor.May(ManageRoles) && actor.stepUp && role != Owner
    }
  }

  /** Only an Owner may manage roles. */
  lemma ManagingRolesTakesAnOwner(actor: Actor)
    ensures actor.May(ManageRoles) <==> actor.state == Active && Owner in actor.roles
  {
    if Owner in actor.roles {
      assert Grants(Owner, ManageRoles);
    }
  }

  /** Inviting takes an Owner or Admin of the tenant, and never makes another one. */
  lemma InvitingTakesAuthority(command: InviteAccount)
    ensures command.Valid() <==>
              && command.actor.tenant == command.tenant && command.actor.state == Active
              && (Owner in command.actor.roles || Admin in command.actor.roles)
              && command.role in {Operator, Auditor, Member}
  {
    if Owner in command.actor.roles {
      assert Grants(Owner, ManageAccounts);
    } else if Admin in command.actor.roles {
      assert Grants(Admin, ManageAccounts);
    }
  }

  /** Changing a role takes an Owner of the tenant with a step-up, and never touches the Owner role. */
  lemma ChangingTakesAnOwner(command: ChangeRole)
    ensures command.Valid() <==>
              && command.actor.tenant == command.tenant && command.actor.state == Active
              && Owner in command.actor.roles && command.actor.stepUp && command.role != Owner
  {
    ManagingRolesTakesAnOwner(command.actor);
  }

  function Bootstrap(t: Tables, tenant: Uuid, owner: Uuid, domain: string, localpart: string): (r: Done<()>)
    ensures AccountsOnly(t, r.tables)
  {
    if tenant in t.tenants || domain in t.tenants.Values || owner in t.accounts then Failed(t, Database)
    else Done(t.(tenants := t.tenants[tenant := domain],
                 accounts := t.accounts[owner := Account(tenant, localpart, MfaEnrollmentRequired)],
                 roles := t.roles + {(tenant, owner, Owner)}), Ok(()))
  }

  predicate LocalpartTaken(t: Tables, tenant: Uuid, localpart: string) {
    exists a | a in t.accounts :: t.accounts[a].tenant == tenant && t.accounts[a].localpart == localpart
  }

  function Invite(t: Tables, command: InviteAccount, id: Uuid): (r: Done<Uuid>)
    ensures AccountsOnly(t, r.tables)
    ensures r.tables.tenants == t.tenants
  {
    if !command.Valid() then Failed(t, Refused)
    else if id in t.accounts || command.tenant !in t.tenants || LocalpartTaken(t, command.tenant, command.localpart) then
      Failed(t, Database)
    else Done(t.(accounts := t.accounts[id := Account(command.tenant, command.localpart, MfaEnrollmentRequired)],
                 roles := t.roles + {(command.tenant, id, command.role)}), Ok(id))
  }

  function ApplyRole(t: Tables, command: ChangeRole): (r: Done<()>)
    ensures AccountsOnly(t, r.tables)
    ensures r.tables.tenants == t.tenants
  {
    var row := (command.tenant, command.target, command.role);
    if !command.Valid() then Failed(t, Refused)
    else if command.grant then
      if !t.Owns(command.tenant, command.target) || row in t.roles then Failed(t, TargetNotFoundOrUnchanged)
      else Done(t.(roles := t.roles + {row}), Ok(()))
    else
      if row !in t.roles then Failed(t, TargetNotFoundOrUnchanged)
      else Done(t.(roles := t.roles - {row}), Ok(()))
  }

  /** An operator suspends an account, or deactivates it for good. */
  function Disable(t: Tables, account: Uuid, permanent: bool): (r: Done<()>)
    ensures AccountsOnly(t, r.tables)
    ensures r.tables.tenants == t.tenants
  {
    if account !in t.accounts then Failed(t, TargetNotFoundOrUnchanged)
    else
      var state := if permanent then Deactivated else Suspended;
      Done(t.(accounts := t.accounts[account := t.accounts[account].(state := state)]), Ok(()))
  }
}
