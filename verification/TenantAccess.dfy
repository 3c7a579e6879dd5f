/**
 Tenant users, invitations and logins (app/services/tenant_admin_service.py:70-74, 156-164,
 265-413, 474-594).

 Rows are never deleted, so a row's id is its position.  E-mail arguments are the text
 already stripped and lower-cased.  An operation that raises leaves its request's
 transaction uncommitted, so it changes nothing.
 */
module TenantAccess {
  import opened Common

  // Seven days, in seconds.
  const INVITATION_LIFETIME := 604800

  datatype Role = Owner | Admin | Reviewer | Auditor | Viewer
  datatype UserStatus = Active | Invited | Disabled
  datatype InvitationStatus = Pending | Accepted | Revoked | Expired
  datatype Provider = Google | Password | OtherProvider(name: string)

  datatype User = User(
    tenantId: string, email: string, name: Option<string>, role: Role, status: UserStatus,
    provider: Provider, lastLogin: Option<int>)

  datatype Invitation = Invitation(
    tenantId: string, email: string, role: Role, status: InvitationStatus,
    invitedBy: Option<string>, acceptedAt: Option<int>, expiresAt: Option<int>)

  datatype Policy = Policy(
    googleEnabled: bool, passwordEnabled: bool, domains: set<string>, emails: set<string>,
    autoProvision: bool, defaultRole: Role)

  // The provider of users an administrator creates.
  const MANUAL := OtherProvider("manual")

  const DEFAULT_POLICY := Policy(true, true, {}, {}, true, Viewer)

  datatype Reason =
    GoogleDisabled | PasswordDisabled | EmailNotAllowed | UserDisabled | InvitationExpired | UserNotInvited

  datatype LoginEvent = LoginEvent(tenantId: string, email: string, provider: Provider, failure: Option<Reason>)

  datatype State = State(
    users: seq<User>, invitations: seq<Invitation>, policies: map<string, Policy>, audit: seq<LoginEvent>)

  datatype Error =
    InvalidEmail | UserExists | InvalidRole | InvalidStatus | UserNotFound | LastOwner | InvitationNotFound

  /** What a request answers: a row, a login that was refused, or the exception raised. */
  datatype Reply = Row(id: nat) | Refused(reason: Reason) | PolicySaved | Failed(error: Error)

  datatype Transition = Transition(state: State, reply: Reply)

  /** An enumeration sent by a client: absent or empty, outside the enumeration, or one of its members. */
  datatype Field<T> = Keep | Unknown | To(value: T)

  datatype PolicyChanges = PolicyChanges(
    google: Option<bool>, password: Option<bool>, domains: Option<seq<string>>, emails: Option<seq<string>>,
    autoProvision: Option<bool>, defaultRole: Field<Role>)

  // ---- Queries -----------------------------------------------------------------------------------------

  predicate WellFormed(email: string) {
    '@' in email && email[0] != '@' && email[|email| - 1] != '@'
  }

  /** The text after the first '@'. */
  function Domain(email: string): string
    requires '@' in email
  {
    if email[0] == '@' then email[1..] else Domain(email[1..])
  }

  predicate IsUser(u: User, tenant: string, email: string) {
    u.tenantId == tenant && u.email == email
  }

  function FindUser(users: seq<User>, tenant: string, email: string): (found: Option<nat>)
    ensures found.Some? ==> found.value < |users| && IsUser(users[found.value], tenant, email)
    ensures found.None? <==> forall k :: 0 <= k < |users| ==> !IsUser(users[k], tenant, email)
  {
    if users == [] then None else
    var earlier := FindUser(users[..|users| - 1], tenant, email);
    if earlier.Some? then earlier
    else if IsUser(users[|users| - 1], tenant, email) then Some(|users| - 1) else None
  }

  predicate IsPending(i: Invitation, tenant: string, email: string) {
    i.status == Pending && i.tenantId == tenant && i.email == email
  }

  /** The newest pending invitation. */
  function FindPending(rows: seq<Invitation>, tenant: string, email: string): (found: Option<nat>)
    ensures found.Some? ==> found.value < |rows| && IsPending(rows[found.value], tenant, email)
    ensures found.None? <==> forall k :: 0 <= k < |rows| ==> !IsPending(rows[k], tenant, email)
  {
    if rows == [] then None
    else if IsPending(rows[|rows| - 1], tenant, email) then Some(|rows| - 1)
    else FindPending(rows[..|rows| - 1], tenant, email)
  }

  predicate IsActiveOwner(u: User, tenant: string) {
    u.tenantId == tenant && u.role == Owner && u.status == Active
  }

  predicate AnotherActiveOwner(users: seq<User>, id: nat)
    requires id < |users|
  {
    exists k :: 0 <= k < |users| && k != id && IsActiveOwner(users[k], users[id].tenantId)
  }

  predicate HasUsers(users: seq<User>, tenant: string) {
    exists k :: 0 <= k < |users| && users[k].tenantId == tenant
  }

  function PolicyOf(s: State, tenant: string): Policy {
    if tenant in s.policies then s.policies[tenant] else DEFAULT_POLICY
  }

  predicate AllowedByPolicy(p: Policy, email: string)
    requires '@' in email
  {
    (p.domains == {} && p.emails == {}) || email in p.emails || Domain(email) in p.domains
  }

  // ---- Operations ------------------------------------------------------------------------------------------

  datatype Op =
    | CreateUser(tenant: string, email: string, role: Option<Role>, status: Option<UserStatus>, name: Option<string>)
    | UpdateUser(tenant: string, id: nat, newName: Option<Option<string>>, newRole: Field<Role>,
                 newStatus: Field<UserStatus>)
    | InviteUser(tenant: string, email: string, role: Option<Role>, invitedBy: Option<string>, now: int)
    | RevokeInvitation(tenant: string, id: nat)
    | UpdatePolicy(tenant: string, changes: PolicyChanges)
    | Login(tenant: string, email: string, name: Option<string>, provider: Provider, now: int)

  function Created(s: State, op: Op): Transition
    requires op.CreateUser?
  {
    if !WellFormed(op.email) then Transition(s, Failed(InvalidEmail))
    else if FindUser(s.users, op.tenant, op.email).Some? then Transition(s, Failed(UserExists))
    else if op.role.None? then Transition(s, Failed(InvalidRole))
    else if op.status.None? then Transition(s, Failed(InvalidStatus))
    else
      var user := User(op.tenant, op.email, op.name, op.role.value, op.status.value, MANUAL, None);
      Transition(s.(users := s.users + [user]), Row(|s.users|))
  }

  function Choose<T>(f: Field<T>, current: T): T {
    if f.To? then f.value else current
  }

  predicate RemovesOwner(u: User, role: Role, status: UserStatus) {
    u.role == Owner && (role != Owner || status != Active)
  }

  function Updated(s: State, op: Op): Transition
    requires op.UpdateUser?
  {
    if op.id >= |s.users| || s.users[op.id].tenantId != op.tenant then Transition(s, Failed(UserNotFound))
    else if op.newRole.Unknown? then Transition(s, Failed(InvalidRole))
    else if op.newStatus.Unknown? then Transition(s, Failed(InvalidStatus))
    else
      var u := s.users[op.id];
      var role, status := Choose(op.newRole, u.role), Choose(op.newStatus, u.status);
      if RemovesOwner(u, role, status) && !AnotherActiveOwner(s.users, op.id) then Transition(s, Failed(LastOwner))
      else
        var name := if op.newName.Some? then op.newName.value else u.name;
        Transition(s.(users := s.users[op.id := u.(name := name, role := role, status := status)]), Row(op.id))
  }

  function InvitedBy(s: State, op: Op): Transition
    requires op.InviteUser?
  {
    if !WellFormed(op.email) then Transition(s, Failed(InvalidEmail))
    else if op.role.None? then Transition(s, Failed(InvalidRole))
    else
      var user := FindUser(s.users, op.tenant, op.email);
      if user.Some? && s.users[user.value].status != Disabled then Transition(s, Failed(UserExists))
      else
        match FindPending(s.invitations, op.tenant, op.email)
        case Some(k) =>
          var i := s.invitations[k];
          var renewed := i.(role := op.role.value, invitedBy := if Truthy(op.invitedBy) then op.invitedBy
                            else i.invitedBy);
          Transition(s.(invitations := s.invitations[k := renewed]), Row(k))
        case None =>
          var i := Invitation(op.tenant, op.email, op.role.value, Pending, op.invitedBy, None,
                              Some(op.now + INVITATION_LIFETIME));
          Transition(s.(invitations := s.invitations + [i]), Row(|s.invitations|))
  }

  function RevokedBy(s: State, op: Op): Transition
    requires op.RevokeInvitation?
  {
    if op.id >= |s.invitations| || s.invitations[op.id].tenantId != op.tenant then
      Transition(s, Failed(InvitationNotFound))
    else if s.invitations[op.id].status != Pending then Transition(s, Row(op.id))
    else Transition(s.(invitations := s.invitations[op.id := s.invitations[op.id].(status := Revoked)]), Row(op.id))
  }

  predicate AllWellFormed(emails: seq<string>) {
    forall e :: e in emails ==> WellFormed(e)
  }

  function SetOf(values: seq<string>): set<string> {
    set v | v in values
  }

  function Or<T>(change: Option<T>, current: T): T {
    if change.Some? then change.value else current
  }

  function ChangedPolicy(p: Policy, c: PolicyChanges): Result<Policy, Error> {
    if c.emails.Some? && !AllWellFormed(c.emails.value) then Err(InvalidEmail)
    else if c.defaultRole.Unknown? || c.defaultRole == To(Owner) then Err(InvalidRole)
    else Ok(Policy(
      Or(c.google, p.googleEnabled),
      Or(c.password, p.passwordEnabled),
      if c.domains.Some? then SetOf(c.domains.value) - {""} else p.domains,
      if c.emails.Some? then SetOf(c.emails.value) else p.emails,
      Or(c.autoProvision, p.autoProvision),
      Choose(c.defaultRole, p.defaultRole)))
  }

  function PolicyUpdated(s: State, op: Op): Transition
    requires op.UpdatePolicy?
  {
    match ChangedPolicy(PolicyOf(s, op.tenant), op.changes)
    case Ok(next) => Transition(s.(policies := s.policies[op.tenant := next]), PolicySaved)
    case Err(error) => Transition(s, Failed(error))
  }

  function Decide(s: State, op: Op): (d: Decision)
    requires op.Login? && WellFormed(op.email)
    ensures d.Known? ==> FindUser(s.users, op.tenant, op.email) == Some(d.user)
    ensures d.Lapsed? ==> FindPending(s.invitations, op.tenant, op.email) == Some(d.invitation)
    ensures d.Redeem? ==> FindPending(s.invitations, op.tenant, op.email) == Some(d.invitation)
  {
    var p := PolicyOf(s, op.tenant);
    if op.provider == Google && !p.googleEnabled then Refuse(GoogleDisabled)
    else if op.provider == Password && !p.passwordEnabled then Refuse(PasswordDisabled)
    else if !AllowedByPolicy(p, op.email) then Refuse(EmailNotAllowed)
    else
      match FindUser(s.users, op.tenant, op.email)
      case Some(k) => if s.users[k].status == Disabled then Refuse(UserDisabled) else Known(k)
      case None =>
        match FindPending(s.invitations, op.tenant, op.email)
        case Some(k) =>
          if s.invitations[k].expiresAt.Some? && s.invitations[k].expiresAt.value < op.now then Lapsed(k) else Redeem(k)
        case None =>
          if !HasUsers(s.users, op.tenant) then Provision(Owner)
          else if p.autoProvision then Provision(p.defaultRole)
          else Refuse(UserNotInvited)
  }

  function NewUser(op: Op, role: Role): User
    requires op.Login?
  {
    User(op.tenant, op.email, op.name, role, Active, op.provider, Some(op.now))
  }

  function Event(op: Op, failure: Option<Reason>): LoginEvent
    requires op.Login?
  {
    LoginEvent(op.tenant, op.email, op.provider, failure)
  }

  function LoggedIn(s: State, op: Op): Transition
    requires op.Login?
  {
    if !WellFormed(op.email) then Transition(s, Failed(InvalidEmail)) else
    var t := s.(policies := s.policies[op.tenant := PolicyOf(s, op.tenant)]);
    match Decide(s, op)
    case Refuse(reason) => Transition(t.(audit := t.audit + [Event(op, Some(reason))]), Refused(reason))
    case Lapsed(k) =>
      Transition(t.(invitations := t.invitations[k := t.invitations[k].(status := Expired)],
                    audit := t.audit + [Event(op, Some(InvitationExpired))]), Refused(InvitationExpired))
    case Known(k) =>
      var u := t.users[k];
      var name := if Truthy(op.name) then op.name else u.name;
      var seen := u.(status := Active, name := name, provider := op.provider, lastLogin := Some(op.now));
      Transition(t.(users := t.users[k := seen], audit := t.audit + [Event(op, None)]), Row(k))
    case Redeem(k) =>
      var i := t.invitations[k];
      Transition(t.(users := t.users + [NewUser(op, i.role)],
                    invitations := t.invitations[k := i.(status := Accepted, acceptedAt := Some(op.now))],
                    audit := t.audit + [Event(op, None)]), Row(|t.users|))
    case Provision(role) =>
      Transition(t.(users := t.users + [NewUser(op, role)], audit := t.audit + [Event(op, None)]), Row(|t.users|))
  }

  function Apply(s: State, op: Op): Transition {
    match op
    case CreateUser(_, _, _, _, _) => Created(s, op)
    case UpdateUser(_, _, _, _, _) => Updated(s, op)
    case InviteUser(_, _, _, _, _) => InvitedBy(s, op)
    case RevokeInvitation(_, _) => RevokedBy(s, op)
    case UpdatePolicy(_, _) => PolicyUpdated(s, op)
    case Login(_, _, _, _, _) => LoggedIn(s, op)
  }

  method ChangeProviders(p: Policy, changes: PolicyChanges) returns (google: bool, password: bool)
    ensures google == Or(changes.google, p.googleEnabled) && password == Or(changes.password, p.passwordEnabled)
  {
    google, password := p.googleEnabled, p.passwordEnabled;
    if changes.google.Some? {
      google := changes.google.value;
    }
    if changes.password.Some? {
      password := changes.password.value;
    }
  }

  /** Who joins unasked, and as what; never as an owner. */
  method ChangeProvisioning(p: Policy, changes: PolicyChanges) returns (r: Result<(bool, Role), Error>)
    ensures r == if changes.defaultRole.Unknown? || changes.defaultRole == To(Owner) then Err(InvalidRole)
                 else Ok((Or(changes.autoProvision, p.autoProvision), Choose(changes.defaultRole, p.defaultRole)))
  {
    var autoProvision, defaultRole := p.autoProvision, p.defaultRole;
    if changes.autoProvision.Some? {
      autoProvision := changes.autoProvision.value;
    }
    if !changes.defaultRole.Keep? {
      if changes.defaultRole.Unknown? || changes.defaultRole.value == Owner {
        return Err(InvalidRole);
      }
      defaultRole := changes.defaultRole.value;
    }
    return Ok((autoProvision, defaultRole));
  }

  /** Overwrites what the request mentions, field by field. */
  method ChangePolicy(p: Policy, changes: PolicyChanges) returns (r: Result<Policy, Error>)
    ensures r == ChangedPolicy(p, changes)
  {
    hide AllWellFormed, SetOf;
    var google, password := ChangeProviders(p, changes);
    var domains, emails := p.domains, p.emails;
    if changes.domains.Some? {
      domains := SetOf(changes.domains.value) - {""};
    }
    if changes.emails.Some? {
      if !AllWellFormed(changes.emails.value) {
        return Err(InvalidEmail);
      }
      emails := SetOf(changes.emails.value);
    }
    var provisioning := ChangeProvisioning(p, changes);
    if provisioning.Err? {
      return Err(provisioning.error);
    }
    return Ok(Policy(google, password, domains, emails, provisioning.value.0, provisioning.value.1));
  }

  /** How a login is decided, before anything is written. */
  datatype Decision =
    | Refuse(reason: Reason)
    | Known(user: nat)
    | Lapsed(invitation: nat)
    | Redeem(invitation: nat)
    | Provision(role: Role)

  // ---- The service --------------------------------------------------------------------------------------------

  class Directory {
    var users: seq<User>
    var invitations: seq<Invitation>
    var policies: map<string, Policy>
    var audit: seq<LoginEvent>

    constructor (s: State)
      ensures View() == s
    {
      users, invitations, policies, audit := s.users, s.invitations, s.policies, s.audit;
    }

    function View(): State
      reads this
    {
      State(users, invitations, policies, audit)
    }

    method CreateTenantUser(op: Op) returns (reply: Reply)
      requires op.CreateUser?
      modifies this`users
      ensures Transition(View(), reply) == Apply(old(View()), op)
    {
      if !WellFormed(op.email) {
        return Failed(InvalidEmail);
      }
      if FindUser(users, op.tenant, op.email).Some? {
        return Failed(UserExists);
      }
      if op.role.None? {
        return Failed(InvalidRole);
      }
      if op.status.None? {
        return Failed(InvalidStatus);
      }
      users := users + [User(op.tenant, op.email, op.name, op.role.value, op.status.value, MANUAL, None)];
      return Row(|users| - 1);
    }

    method UpdateTenantUser(op: Op) returns (reply: Reply)
      requires op.UpdateUser?
      modifies this`users
      ensures Transition(View(), reply) == Apply(old(View()), op)
    {
      if op.id >= |users| || users[op.id].tenantId != op.tenant {
        return Failed(UserNotFound);
      }
      if op.newRole.Unknown? {
        return Failed(InvalidRole);
      }
      if op.newStatus.Unknown? {
        return Failed(InvalidStatus);
      }
      var user := users[op.id];
      var nextRole, nextStatus := Choose(op.newRole, user.role), Choose(op.newStatus, user.status);
      if RemovesOwner(user, nextRole, nextStatus) && !AnotherActiveOwner(users, op.id) {
        return Failed(LastOwner);
      }
      if op.newName.Some? {
        user := user.(name := op.newName.value);
      }
      if op.newRole.To? {
        user := user.(role := nextRole);
      }
      if op.newStatus.To? {
        user := user.(status := nextStatus);
      }
      users := users[op.id := user];
      return Row(op.id);
    }

    method InviteTenantUser(op: Op) returns (reply: Reply)
      requires op.InviteUser?
      modifies this`invitations
      ensures Transition(View(), reply) == Apply(old(View()), op)
    {
      if !WellFormed(op.email) {
        return Failed(InvalidEmail);
      }
      if op.role.None? {
        return Failed(InvalidRole);
      }
      var existing := FindUser(users, op.tenant, op.email);
      if existing.Some? && users[existing.value].status != Disabled {
        return Failed(UserExists);
      }
      var pending := FindPending(invitations, op.tenant, op.email);
      if pending.Some? {
        var invitation := invitations[pending.value].(role := op.role.value);
        if Truthy(op.invitedBy) {
          invitation := invitation.(invitedBy := op.invitedBy);
        }
        invitations := invitations[pending.value := invitation];
        return Row(pending.value);
      }
      invitations := invitations + [Invitation(op.tenant, op.email, op.role.value, Pending, op.invitedBy, None,
                                               Some(op.now + INVITATION_LIFETIME))];
      return Row(|invitations| - 1);
    }

    method RevokeTenantInvitation(op: Op) returns (reply: Reply)
      requires op.RevokeInvitation?
      modifies this`invitations
      ensures Transition(View(), reply) == Apply(old(View()), op)
    {
      if op.id >= |invitations| || invitations[op.id].tenantId != op.tenant {
        return Failed(InvitationNotFound);
      }
      if invitations[op.id].status == Pending {
        invitations := invitations[op.id := invitations[op.id].(status := Revoked)];
      }
      return Row(op.id);
    }

    method GetOrCreateAuthPolicy(tenant: string) returns (p: Policy)
      modifies this`policies
      ensures p == old(PolicyOf(View(), tenant)) && policies == old(policies)[tenant := p]
    {
      if tenant in policies {
        assert policies == policies[tenant := policies[tenant]];
        return policies[tenant];
      }
      policies := policies[tenant := DEFAULT_POLICY];
      return DEFAULT_POLICY;
    }

    /** The row is stored last: an exception half-way discards the request's transaction. */
    method UpdateAuthPolicy(op: Op) returns (reply: Reply)
      requires op.UpdatePolicy?
      modifies this`policies
      ensures Transition(View(), reply) == Apply(old(View()), op)
    {
      var policy := PolicyOf(View(), op.tenant);
      var changed := ChangePolicy(policy, op.changes);
      if changed.Err? {
        return Failed(changed.error);
      }
      policies := policies[op.tenant := changed.value];
      return PolicySaved;
    }

    method RecordLogin(event: LoginEvent)
      modifies this`audit
      ensures audit == old(audit) + [event]
    {
      audit := audit + [event];
    }

    method ResolveLoginIdentity(op: Op) returns (reply: Reply)
      requires op.Login?
      modifies this
      ensures Transition(View(), reply) == Apply(old(View()), op)
    {
      if !WellFormed(op.email) {
        return Failed(InvalidEmail);
      }
      var policy := GetOrCreateAuthPolicy(op.tenant);
      if op.provider == Google && !policy.googleEnabled {
        RecordLogin(Event(op, Some(GoogleDisabled)));
        return Refused(GoogleDisabled);
      }
      if op.provider == Password && !policy.passwordEnabled {
        RecordLogin(Event(op, Some(PasswordDisabled)));
        return Refused(PasswordDisabled);
      }
      if !AllowedByPolicy(policy, op.email) {
        RecordLogin(Event(op, Some(EmailNotAllowed)));
        return Refused(EmailNotAllowed);
      }
      var found := FindUser(users, op.tenant, op.email);
      if found.Some? {
        var user := users[found.value];
        if user.status == Disabled {
          RecordLogin(Event(op, Some(UserDisabled)));
          return Refused(UserDisabled);
        }
        user := user.(status := Active);
        if Truthy(op.name) {
          user := user.(name := op.name);
        }
        users := users[found.value := user.(provider := op.provider, lastLogin := Some(op.now))];
        RecordLogin(Event(op, None));
        return Row(found.value);
      }
      var role;
      var pending := FindPending(invitations, op.tenant, op.email);
      if pending.Some? {
        var invitation := invitations[pending.value];
        if invitation.expiresAt.Some? && invitation.expiresAt.value < op.now {
          invitations := invitations[pending.value := invitation.(status := Expired)];
          RecordLogin(Event(op, Some(InvitationExpired)));
          return Refused(InvitationExpired);
        }
        role := invitation.role;
        invitation := invitation.(status := Accepted, acceptedAt := Some(op.now));
        invitations := invitations[pending.value := invitation];
      } else if !HasUsers(users, op.tenant) {
        role := Owner;
      } else if policy.autoProvision {
        role := policy.defaultRole;
      } else {
        RecordLogin(Event(op, Some(UserNotInvited)));
        return Refused(UserNotInvited);
      }
      users := users + [NewUser(op, role)];
      RecordLogin(Event(op, None));
      return Row(|users| - 1);
    }
  }
}
