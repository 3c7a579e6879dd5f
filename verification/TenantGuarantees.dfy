/**
 What every run of the user, invitation, policy and login operations keeps
 (app/services/tenant_admin_service.py:265-413, 474-594).
 */
module TenantGuarantees {
  import opened Common
  import opened TenantAccess

  function Run(s: State, ops: seq<Op>): State
    decreases |ops|
  {
    if ops == [] then s else Run(Apply(s, ops[0]).state, ops[1..])
  }

  // ---- Table invariants ------------------------------------------------------------------------------------

  ghost predicate UniqueEmails(users: seq<User>) {
    forall j, k :: 0 <= j < k < |users| ==> users[j].tenantId != users[k].tenantId || users[j].email != users[k].email
  }

  ghost predicate OnePendingPerEmail(rows: seq<Invitation>) {
    forall j, k :: 0 <= j < k < |rows| && rows[j].status == rows[k].status == Pending
      ==> rows[j].tenantId != rows[k].tenantId || rows[j].email != rows[k].email
  }

  ghost predicate HasUser(users: seq<User>, tenant: string, email: string) {
    exists k :: 0 <= k < |users| && users[k].tenantId == tenant && users[k].email == email
  }

  ghost predicate AcceptedMeansUser(s: State) {
    forall k :: 0 <= k < |s.invitations| && s.invitations[k].status == Accepted
      ==> HasUser(s.users, s.invitations[k].tenantId, s.invitations[k].email)
  }

  ghost predicate PoliciesGrantNoOwner(s: State) {
    forall t :: t in s.policies ==> s.policies[t].defaultRole != Owner
  }

  ghost predicate Inv(s: State) {
    UniqueEmails(s.users) && OnePendingPerEmail(s.invitations) && AcceptedMeansUser(s) && PoliciesGrantNoOwner(s)
  }

  lemma EmptyTablesHoldInv()
    ensures Inv(State([], [], map[], []))
  {
  }

  /** Users are only appended, and a row keeps its tenant and e-mail. */
  ghost predicate UsersKept(before: seq<User>, after: seq<User>) {
    |before| <= |after|
    && forall k :: 0 <= k < |before| ==> after[k].tenantId == before[k].tenantId && after[k].email == before[k].email
  }

  /** Invitations are only appended; all a pending one may change is role, inviter and status. */
  ghost predicate InvitationsKept(before: seq<Invitation>, after: seq<Invitation>) {
    |before| <= |after|
    && forall k :: 0 <= k < |before| ==>
         && (before[k].status != Pending ==> after[k] == before[k])
         && after[k].tenantId == before[k].tenantId && after[k].email == before[k].email
         && after[k].expiresAt == before[k].expiresAt
  }

  lemma StepKeepsRows(s: State, op: Op)
    ensures UsersKept(s.users, Apply(s, op).state.users)
    ensures InvitationsKept(s.invitations, Apply(s, op).state.invitations)
  {
    hide FindUser, FindPending, AllowedByPolicy, Domain, HasUsers, WellFormed, AllWellFormed, SetOf, ChangedPolicy;
    match op
    case CreateUser(_, _, _, _, _) => assert UsersKept(s.users, Created(s, op).state.users);
    case UpdateUser(_, _, _, _, _) => assert UsersKept(s.users, Updated(s, op).state.users);
    case InviteUser(_, _, _, _, _) => assert InvitationsKept(s.invitations, InvitedBy(s, op).state.invitations);
    case RevokeInvitation(_, _) => assert InvitationsKept(s.invitations, RevokedBy(s, op).state.invitations);
    case UpdatePolicy(_, _) =>
    case Login(_, _, _, _, _) =>
      assert UsersKept(s.users, LoggedIn(s, op).state.users);
      assert InvitationsKept(s.invitations, LoggedIn(s, op).state.invitations);
  }

  lemma UserStays(before: seq<User>, after: seq<User>, tenant: string, email: string)
    requires UsersKept(before, after) && HasUser(before, tenant, email)
    ensures HasUser(after, tenant, email)
  {
    var k :| 0 <= k < |before| && before[k].tenantId == tenant && before[k].email == email;
    assert after[k].tenantId == tenant && after[k].email == email;
  }

  lemma AppendKeepsUnique(users: seq<User>, u: User)
    requires UniqueEmails(users) && FindUser(users, u.tenantId, u.email).None?
    ensures UniqueEmails(users + [u])
  {
    hide FindUser;
    var after := users + [u];
    forall j, k | 0 <= j < k < |after|
      ensures after[j].tenantId != after[k].tenantId || after[j].email != after[k].email
    {
      if k == |users| {
        assert !IsUser(users[j], u.tenantId, u.email);
      }
    }
  }

  lemma StepKeepsUniqueEmails(s: State, op: Op)
    requires UniqueEmails(s.users)
    ensures UniqueEmails(Apply(s, op).state.users)
  {
    hide FindUser, FindPending;
    var after := Apply(s, op).state.users;
    if |after| > |s.users| {
      var u := after[|s.users|];
      assert after == s.users + [u];
      assert FindUser(s.users, u.tenantId, u.email).None?;
      AppendKeepsUnique(s.users, u);
    } else {
      StepKeepsRows(s, op);
    }
  }

  lemma StepKeepsOnePending(s: State, op: Op)
    requires OnePendingPerEmail(s.invitations)
    ensures OnePendingPerEmail(Apply(s, op).state.invitations)
  {
    hide FindUser, FindPending;
    var rows, after := s.invitations, Apply(s, op).state.invitations;
    StepKeepsRows(s, op);
    forall j, k | 0 <= j < k < |after| && after[j].status == after[k].status == Pending
      ensures after[j].tenantId != after[k].tenantId || after[j].email != after[k].email
    {
      if k < |rows| {
        assert rows[j].status == Pending;
        assert rows[k].status == Pending;
      } else {
        assert op.InviteUser? && FindPending(rows, op.tenant, op.email).None?;
        assert after[j] == rows[j];
        assert !IsPending(rows[j], op.tenant, op.email);
      }
    }
  }

  lemma StepKeepsAccepted(s: State, op: Op)
    requires AcceptedMeansUser(s)
    ensures AcceptedMeansUser(Apply(s, op).state)
  {
    hide FindUser, FindPending;
    var t := Apply(s, op).state;
    StepKeepsRows(s, op);
    forall k | 0 <= k < |t.invitations| && t.invitations[k].status == Accepted
      ensures HasUser(t.users, t.invitations[k].tenantId, t.invitations[k].email)
    {
      var i := t.invitations[k];
      if k < |s.invitations| && s.invitations[k].status == Accepted {
        UserStays(s.users, t.users, i.tenantId, i.email);
      } else {
        assert op.Login? && t.users == s.users + [NewUser(op, i.role)];
        assert t.users[|s.users|].tenantId == i.tenantId && t.users[|s.users|].email == i.email;
      }
    }
  }

  lemma StepKeepsPolicies(s: State, op: Op)
    requires PoliciesGrantNoOwner(s)
    ensures PoliciesGrantNoOwner(Apply(s, op).state)
  {
    hide FindUser, FindPending;
  }

  /**
   Over every run: one user per tenant and e-mail, at most one pending invitation per
   tenant and e-mail, a user behind every accepted invitation, and no policy whose default
   role is owner.
   */
  lemma {:induction false} RunKeepsInv(s: State, ops: seq<Op>)
    requires Inv(s)
    ensures Inv(Run(s, ops))
    decreases |ops|
  {
    if ops != [] {
      StepKeepsUniqueEmails(s, ops[0]);
      StepKeepsOnePending(s, ops[0]);
      StepKeepsAccepted(s, ops[0]);
      StepKeepsPolicies(s, ops[0]);
      RunKeepsInv(Apply(s, ops[0]).state, ops[1..]);
    }
  }

  /** So every state reached from empty tables is sound. */
  lemma ReachableStatesAreSound(ops: seq<Op>)
    ensures Inv(Run(State([], [], map[], []), ops))
  {
    EmptyTablesHoldInv();
    RunKeepsInv(State([], [], map[], []), ops);
  }

  /** Accepted, revoked and expired are terminal: such a row never changes again. */
  lemma {:induction false} SettledInvitationsAreFrozen(s: State, ops: seq<Op>, k: nat)
    requires k < |s.invitations| && s.invitations[k].status != Pending
    ensures k < |Run(s, ops).invitations| && Run(s, ops).invitations[k] == s.invitations[k]
    decreases |ops|
  {
    if ops != [] {
      StepKeepsRows(s, ops[0]);
      SettledInvitationsAreFrozen(Apply(s, ops[0]).state, ops[1..], k);
    }
  }

  // ---- What the rows say ------------------------------------------------------------------------------------------

  ghost predicate ProviderEnabled(p: Policy, provider: Provider) {
    (provider == Google ==> p.googleEnabled) && (provider == Password ==> p.passwordEnabled)
  }

  ghost predicate Awaits(i: Invitation, tenant: string, email: string) {
    i.tenantId == tenant && i.email == email && i.status == Pending
  }

  ghost predicate HasPending(rows: seq<Invitation>, tenant: string, email: string) {
    exists k :: 0 <= k < |rows| && Awaits(rows[k], tenant, email)
  }

  ghost predicate HasAnyUser(users: seq<User>, tenant: string) {
    exists k :: 0 <= k < |users| && users[k].tenantId == tenant
  }

  /** The tenant's policy row, or what a new row would say. */
  ghost function InForce(s: State, tenant: string): Policy {
    if tenant in s.policies then s.policies[tenant] else Policy(true, true, {}, {}, true, Viewer)
  }

  /** An '@' somewhere inside, none at either end. */
  ghost predicate IsAddress(email: string) {
    email != "" && email[0] != '@' && email[|email| - 1] != '@' && exists k :: 0 <= k < |email| && email[k] == '@'
  }

  /** The policy lists nothing, or it lists the e-mail or the text after its first '@'. */
  ghost predicate OnTheList(p: Policy, email: string) {
    || (p.domains == {} && p.emails == {})
    || email in p.emails
    || exists k :: 0 <= k < |email| && email[k] == '@' && '@' !in email[..k] && email[k + 1..] in p.domains
  }

  // ---- Owners ------------------------------------------------------------------------------------------------

  ghost predicate HasActiveOwner(s: State, tenant: string) {
    exists k :: 0 <= k < |s.users| && s.users[k].tenantId == tenant && s.users[k].role == Owner
                && s.users[k].status == Active
  }

  lemma StepKeepsAnOwner(s: State, op: Op, tenant: string)
    requires HasActiveOwner(s, tenant)
    ensures HasActiveOwner(Apply(s, op).state, tenant)
  {
    hide FindUser, FindPending;
    var k :| 0 <= k < |s.users| && s.users[k].tenantId == tenant && s.users[k].role == Owner
             && s.users[k].status == Active;
    var after := Apply(s, op).state.users;
    StepKeepsRows(s, op);
    assert after[k].tenantId == tenant;
    if !(after[k].role == Owner && after[k].status == Active) {
      assert op.UpdateUser? && op.id == k && AnotherActiveOwner(s.users, k);
      var other :| 0 <= other < |s.users| && other != k && IsActiveOwner(s.users[other], s.users[k].tenantId);
      assert after[other] == s.users[other];
    }
  }

  /** Once a tenant has an active owner it always has one. */
  lemma {:induction false} AnOwnerAlwaysRemains(s: State, ops: seq<Op>, tenant: string)
    requires HasActiveOwner(s, tenant)
    ensures HasActiveOwner(Run(s, ops), tenant)
    decreases |ops|
  {
    if ops != [] {
      StepKeepsAnOwner(s, ops[0], tenant);
      AnOwnerAlwaysRemains(Apply(s, ops[0]).state, ops[1..], tenant);
    }
  }

  /** When an otherwise valid update is refused for want of another owner. */
  lemma LastOwnerIff(s: State, op: Op)
    requires op.UpdateUser? && op.id < |s.users| && s.users[op.id].tenantId == op.tenant
    requires !op.newRole.Unknown? && !op.newStatus.Unknown?
    ensures var u := s.users[op.id];
            Apply(s, op).reply == Failed(LastOwner) <==>
              && u.role == Owner
              && (op.newRole in {To(Admin), To(Reviewer), To(Auditor), To(Viewer)}
                  || op.newStatus in {To(Invited), To(Disabled)}
                  || (op.newStatus == Keep && u.status != Active))
              && !exists k :: 0 <= k < |s.users| && k != op.id && s.users[k].tenantId == op.tenant
                              && s.users[k].role == Owner && s.users[k].status == Active
  {
  }

  /** The guard also stops what removes no active owner: renaming a disabled owner who is alone. */
  lemma RenamingALoneDisabledOwnerFails(tenant: string, email: string, name: string)
    ensures var u := User(tenant, email, None, Owner, Disabled, MANUAL, None);
            var op := UpdateUser(tenant, 0, Some(Some(name)), Keep, Keep);
            Apply(State([u], [], map[], []), op) == Transition(State([u], [], map[], []), Failed(LastOwner))
  {
  }

  /** Where an owner after one operation comes from: no automatic provisioning ever makes one. */
  lemma OwnersComeFrom(s: State, op: Op, k: nat)
    requires PoliciesGrantNoOwner(s) && k < |Apply(s, op).state.users|
    requires Apply(s, op).state.users[k].role == Owner
    ensures || (k < |s.users| && s.users[k].role == Owner)
            || (op.UpdateUser? && op.id == k && op.newRole == To(Owner))
            || (op.CreateUser? && op.role == Some(Owner))
            || (op.Login? && exists i :: 0 <= i < |s.invitations| && Awaits(s.invitations[i], op.tenant, op.email)
                                         && s.invitations[i].role == Owner)
            || (op.Login? && !HasAnyUser(s.users, op.tenant))
  {
    hide FindUser, FindPending;
  }

  // ---- Logins ------------------------------------------------------------------------------------------------

  lemma {:induction false} FirstAt(email: string) returns (k: nat)
    requires '@' in email
    ensures k < |email| && email[k] == '@' && '@' !in email[..k] && Domain(email) == email[k + 1..]
  {
    if email[0] == '@' {
      k := 0;
    } else {
      var rest := FirstAt(email[1..]);
      k := rest + 1;
      assert email[..k] == [email[0]] + email[1..][..rest];
    }
  }

  lemma FirstAtIsOne(email: string, j: nat, k: nat)
    requires j < |email| && k < |email| && email[j] == email[k] == '@' && '@' !in email[..j] && '@' !in email[..k]
    ensures j == k
  {
    assert forall i :: 0 <= i < k ==> email[..k][i] == email[i];
    assert forall i :: 0 <= i < j ==> email[..j][i] == email[i];
  }

  lemma HasUsersIff(users: seq<User>, tenant: string)
    ensures HasUsers(users, tenant) <==> HasAnyUser(users, tenant)
  {
  }

  lemma ListIsExact(p: Policy, email: string)
    requires '@' in email
    ensures AllowedByPolicy(p, email) <==> OnTheList(p, email)
  {
    var k := FirstAt(email);
    forall j: nat | j < |email| && email[j] == '@' && '@' !in email[..j]
      ensures j == k
    {
      FirstAtIsOne(email, j, k);
    }
  }

  ghost predicate PastDeadline(i: Invitation, now: int) {
    i.expiresAt.Some? && i.expiresAt.value < now
  }

  /** A user of that e-mail is disabled. */
  ghost predicate IsDisabled(users: seq<User>, tenant: string, email: string) {
    exists k :: 0 <= k < |users| && users[k].tenantId == tenant && users[k].email == email
                && users[k].status == Disabled
  }

  /** A pending invitation of that e-mail is past its deadline. */
  ghost predicate IsLate(rows: seq<Invitation>, tenant: string, email: string, now: int) {
    exists k :: 0 <= k < |rows| && Awaits(rows[k], tenant, email) && PastDeadline(rows[k], now)
  }

  lemma UserFacts(users: seq<User>, tenant: string, email: string)
    requires UniqueEmails(users)
    ensures var user := FindUser(users, tenant, email);
            && (user.Some? <==> HasUser(users, tenant, email))
            && (user.Some? ==> (IsDisabled(users, tenant, email) <==> users[user.value].status == Disabled))
  {
    var user := FindUser(users, tenant, email);
    hide FindUser;
    if k :| 0 <= k < |users| && users[k].tenantId == tenant && users[k].email == email {
      assert IsUser(users[k], tenant, email);
      assert k == user.value;
    }
  }

  lemma PendingFacts(rows: seq<Invitation>, tenant: string, email: string, now: int)
    requires OnePendingPerEmail(rows)
    ensures var pending := FindPending(rows, tenant, email);
            && (pending.Some? <==> HasPending(rows, tenant, email))
            && (pending.Some? ==> (IsLate(rows, tenant, email, now) <==> PastDeadline(rows[pending.value], now)))
  {
    var pending := FindPending(rows, tenant, email);
    hide FindPending, PastDeadline;
    if k :| 0 <= k < |rows| && Awaits(rows[k], tenant, email) {
      assert IsPending(rows[k], tenant, email);
      assert k == pending.value;
    }
  }

  lemma DisabledAreUsers(users: seq<User>, tenant: string, email: string)
    ensures IsDisabled(users, tenant, email) ==> HasUser(users, tenant, email)
  {
  }

  lemma LateArePending(rows: seq<Invitation>, tenant: string, email: string, now: int)
    ensures IsLate(rows, tenant, email, now) ==> HasPending(rows, tenant, email)
  {
  }

  lemma AddressIff(email: string)
    ensures WellFormed(email) <==> IsAddress(email)
    ensures IsAddress(email) ==> '@' in email
  {
  }

  /** A login is admitted exactly when the policy lets the attempt in and some row or rule vouches for it. */
  lemma LoginAdmitsIff(s: State, op: Op)
    requires Inv(s) && op.Login?
    ensures var p := InForce(s, op.tenant);
            Apply(s, op).reply.Row? <==>
              && IsAddress(op.email) && ProviderEnabled(p, op.provider) && OnTheList(p, op.email)
              && if HasUser(s.users, op.tenant, op.email) then !IsDisabled(s.users, op.tenant, op.email)
                 else if HasPending(s.invitations, op.tenant, op.email) then
                   !IsLate(s.invitations, op.tenant, op.email, op.now)
                 else HasAnyUser(s.users, op.tenant) ==> p.autoProvision
  {
    hide FindUser, FindPending, AllowedByPolicy, Domain, OnTheList, HasUser, HasPending, IsDisabled, IsLate, HasUsers;
    hide HasAnyUser, WellFormed, IsAddress, UniqueEmails, OnePendingPerEmail;
    AddressIff(op.email);
    HasUsersIff(s.users, op.tenant);
    if WellFormed(op.email) {
      ListIsExact(InForce(s, op.tenant), op.email);
    }
    UserFacts(s.users, op.tenant, op.email);
    PendingFacts(s.invitations, op.tenant, op.email, op.now);
  }

  /** A refusal touches no user, and an invitation only when it is the one that has expired. */
  lemma RefusalsLeaveTheUsers(s: State, op: Op)
    requires op.Login? && Apply(s, op).reply.Refused?
    ensures var t := Apply(s, op).state;
            && t.users == s.users && t.policies == s.policies[op.tenant := InForce(s, op.tenant)]
            && (Apply(s, op).reply.reason != InvitationExpired ==> t.invitations == s.invitations)
            && (Apply(s, op).reply.reason == InvitationExpired ==>
                  exists k :: 0 <= k < |s.invitations| && Awaits(s.invitations[k], op.tenant, op.email)
                              && t.invitations == s.invitations[k := s.invitations[k].(status := Expired)])
  {
    hide FindUser, FindPending, AllowedByPolicy, Domain, WellFormed, HasUsers;
    var d := Decide(s, op);
    if d.Lapsed? {
      assert Awaits(s.invitations[d.invitation], op.tenant, op.email);
    }
  }

  /** Why a login is refused, each reason by its exact condition. */
  lemma RefusedLoginIff(s: State, op: Op)
    requires Inv(s) && op.Login? && IsAddress(op.email)
    ensures var p, reply := InForce(s, op.tenant), Apply(s, op).reply;
            var enters := ProviderEnabled(p, op.provider) && OnTheList(p, op.email);
            var newcomer := enters && !HasUser(s.users, op.tenant, op.email);
            && (reply == Refused(GoogleDisabled) <==> op.provider == Google && !p.googleEnabled)
            && (reply == Refused(PasswordDisabled) <==> op.provider == Password && !p.passwordEnabled)
            && (reply == Refused(EmailNotAllowed) <==> ProviderEnabled(p, op.provider) && !OnTheList(p, op.email))
            && (reply == Refused(UserDisabled) <==> enters && IsDisabled(s.users, op.tenant, op.email))
            && (reply == Refused(InvitationExpired) <==>
                  newcomer && IsLate(s.invitations, op.tenant, op.email, op.now))
            && (reply == Refused(UserNotInvited) <==>
                  && newcomer && !HasPending(s.invitations, op.tenant, op.email)
                  && HasAnyUser(s.users, op.tenant) && !p.autoProvision)
  {
    hide FindUser, FindPending, AllowedByPolicy, Domain, OnTheList, HasUser, HasPending, IsDisabled, IsLate, HasUsers;
    hide HasAnyUser, WellFormed, IsAddress, UniqueEmails, OnePendingPerEmail;
    AddressIff(op.email);
    HasUsersIff(s.users, op.tenant);
    ListIsExact(InForce(s, op.tenant), op.email);
    UserFacts(s.users, op.tenant, op.email);
    DisabledAreUsers(s.users, op.tenant, op.email);
    PendingFacts(s.invitations, op.tenant, op.email, op.now);
    LateArePending(s.invitations, op.tenant, op.email, op.now);
  }

  /** A provider matters only by being enabled: two attempts by different providers fare alike. */
  lemma ProvisioningIgnoresTheProvider(s: State, a: Op, b: Op)
    requires a.Login? && b.Login? && b == a.(provider := b.provider) && IsAddress(a.email)
    requires ProviderEnabled(InForce(s, a.tenant), a.provider) && ProviderEnabled(InForce(s, b.tenant), b.provider)
    ensures Apply(s, a).reply == Apply(s, b).reply
    ensures var t, u := Apply(s, a).state, Apply(s, b).state;
            |t.users| == |u.users| && t.invitations == u.invitations && t.policies == u.policies
            && forall k :: 0 <= k < |t.users| ==> u.users[k] == t.users[k].(provider := u.users[k].provider)
  {
    assert WellFormed(a.email);
    hide FindUser, FindPending, WellFormed, AllowedByPolicy, HasUsers, Domain;
    assert Decide(s, a) == Decide(s, b);
  }

  /** The redeemed invitation is the one the newcomer's role is from; only it changes. */
  ghost predicate RedeemedBy(s: State, op: Op, t: State, role: Role)
    requires op.Login?
  {
    exists i :: 0 <= i < |s.invitations| && Awaits(s.invitations[i], op.tenant, op.email)
                && s.invitations[i].role == role && !PastDeadline(s.invitations[i], op.now)
                && t.invitations
                   == s.invitations[i := s.invitations[i].(status := Accepted, acceptedAt := Some(op.now))]
  }

  /** The user a login is answered with, the role it carries, and that nothing else changes. */
  lemma AdmittedUser(s: State, op: Op)
    requires Inv(s) && op.Login? && Apply(s, op).reply.Row?
    ensures var t, k, p := Apply(s, op).state, Apply(s, op).reply.id, InForce(s, op.tenant);
            && k <= |s.users| && k < |t.users| && t.policies == s.policies[op.tenant := p]
            && if HasUser(s.users, op.tenant, op.email) then
                 && k < |s.users| && s.users[k].tenantId == op.tenant && s.users[k].email == op.email
                 && t.users == s.users[k := s.users[k].(status := Active, provider := op.provider,
                                                        name := if Truthy(op.name) then op.name else s.users[k].name,
                                                        lastLogin := Some(op.now))]
                 && t.invitations == s.invitations
               else
                 var role := t.users[k].role;
                 && t.users == s.users + [User(op.tenant, op.email, op.name, role, Active, op.provider, Some(op.now))]
                 && if HasPending(s.invitations, op.tenant, op.email) then RedeemedBy(s, op, t, role)
                    else t.invitations == s.invitations
                         && role == if HasAnyUser(s.users, op.tenant) then p.defaultRole else Owner
  {
    hide FindUser, FindPending, WellFormed, AllowedByPolicy, Domain, HasUsers;
    HasUsersIff(s.users, op.tenant);
    var d := Decide(s, op);
    if d.Redeem? {
      assert Awaits(s.invitations[d.invitation], op.tenant, op.email);
    }
  }

  /** What one operation leaves in the login audit: the answer of a login, and of nothing else. */
  function AuditOf(op: Op, reply: Reply): seq<LoginEvent> {
    if !op.Login? || reply.Failed? then []
    else [LoginEvent(op.tenant, op.email, op.provider, if reply.Refused? then Some(reply.reason) else None)]
  }

  function Answers(s: State, ops: seq<Op>): seq<LoginEvent>
    decreases |ops|
  {
    if ops == [] then []
    else AuditOf(ops[0], Apply(s, ops[0]).reply) + Answers(Apply(s, ops[0]).state, ops[1..])
  }

  lemma StepAudits(s: State, op: Op)
    ensures Apply(s, op).state.audit == s.audit + AuditOf(op, Apply(s, op).reply)
    ensures op.Login? ==> (Apply(s, op).reply.Failed? <==> !WellFormed(op.email))
    ensures op.Login? && Apply(s, op).reply.Failed? ==> Apply(s, op).state == s
  {
    hide FindUser, FindPending, WellFormed, AllowedByPolicy, Domain, HasUsers;
  }

  /** The audit of a run is the answers its logins gave, in order, one row each. */
  lemma {:induction false} AuditIsTheAnswers(s: State, ops: seq<Op>)
    ensures Run(s, ops).audit == s.audit + Answers(s, ops)
    decreases |ops|
  {
    hide Apply;
    if ops != [] {
      StepAudits(s, ops[0]);
      AuditIsTheAnswers(Apply(s, ops[0]).state, ops[1..]);
    }
  }

  // ---- Invitations that cannot be used ------------------------------------------------------------------------

  lemma ShadowedStep(s: State, op: Op, k: nat)
    requires k < |s.invitations| && s.invitations[k].status != Accepted
    requires HasUser(s.users, s.invitations[k].tenantId, s.invitations[k].email)
    ensures k < |Apply(s, op).state.invitations| && Apply(s, op).state.invitations[k].status != Accepted
  {
    StepKeepsRows(s, op);
    hide FindUser, FindPending, WellFormed, AllowedByPolicy, Domain, HasUsers;
  }

  /**
   Once the invited e-mail has a user, the invitation is never accepted: inviting a
   disabled user, which is allowed, yields an invitation nobody can redeem.
   */
  lemma {:induction false} ShadowedInvitationIsNeverAccepted(s: State, ops: seq<Op>, k: nat)
    requires k < |s.invitations| && s.invitations[k].status != Accepted
    requires HasUser(s.users, s.invitations[k].tenantId, s.invitations[k].email)
    ensures k < |Run(s, ops).invitations| && Run(s, ops).invitations[k].status != Accepted
    decreases |ops|
  {
    if ops != [] {
      var t := Apply(s, ops[0]).state;
      ShadowedStep(s, ops[0], k);
      StepKeepsRows(s, ops[0]);
      UserStays(s.users, t.users, s.invitations[k].tenantId, s.invitations[k].email);
      ShadowedInvitationIsNeverAccepted(t, ops[1..], k);
    }
  }

  /** A disabled user can be invited, and the invitation changes nothing about the next login. */
  lemma InvitingADisabledUser(s: State, invite: Op, login: Op, k: nat)
    requires Inv(s) && invite.InviteUser? && login.Login? && IsAddress(invite.email) && invite.role.Some?
    requires login.tenant == invite.tenant && login.email == invite.email
    requires k < |s.users| && s.users[k].tenantId == invite.tenant && s.users[k].email == invite.email
    requires s.users[k].status == Disabled
    ensures Apply(s, invite).reply.Row? && Apply(Apply(s, invite).state, login).reply.Refused?
  {
    assert WellFormed(invite.email);
    hide FindUser, FindPending, WellFormed, AllowedByPolicy, Domain, HasUsers;
    assert IsUser(s.users[k], invite.tenant, invite.email);
    assert FindUser(s.users, invite.tenant, invite.email) == Some(k);
  }

  /** The first login after the deadline is refused; a retry then succeeds exactly when anyone may join. */
  lemma RetryAfterExpiry(s: State, op: Op, retry: Op)
    requires Inv(s) && op.Login? && retry.Login? && Apply(s, op).reply == Refused(InvitationExpired)
    requires retry.tenant == op.tenant && retry.email == op.email && retry.provider == op.provider
    ensures Apply(Apply(s, op).state, retry).reply.Row? <==>
              !HasAnyUser(s.users, op.tenant) || InForce(s, op.tenant).autoProvision
  {
    var t := Apply(s, op).state;
    hide FindUser, FindPending, WellFormed, AllowedByPolicy, Domain, HasUsers;
    var k := Decide(s, op).invitation;
    assert forall j :: 0 <= j < |t.invitations| ==> !IsPending(t.invitations[j], op.tenant, op.email);
    assert FindPending(t.invitations, op.tenant, op.email).None?;
    assert t.users == s.users && PolicyOf(t, op.tenant) == PolicyOf(s, op.tenant) == InForce(s, op.tenant);
    assert HasUsers(s.users, op.tenant) <==> HasAnyUser(s.users, op.tenant) by {
      HasUsersIff(s.users, op.tenant);
    }
  }

  /** An invite leaves the invitation it answers with pending, under the old deadline if there was one. */
  lemma InviteLeavesItPending(s: State, invite: Op)
    requires OnePendingPerEmail(s.invitations) && invite.InviteUser? && Apply(s, invite).reply.Row?
    ensures var t, k := Apply(s, invite).state, Apply(s, invite).reply.id;
            && t.users == s.users && t.policies == s.policies
            && FindPending(t.invitations, invite.tenant, invite.email) == Some(k)
            && match FindPending(s.invitations, invite.tenant, invite.email)
               case Some(prior) => k == prior && t.invitations[k].expiresAt == s.invitations[prior].expiresAt
               case None => t.invitations[k].expiresAt == Some(invite.now + 7 * 24 * 60 * 60)
  {
    hide FindUser, FindPending, WellFormed;
    StepKeepsOnePending(s, invite);
    var t, k := Apply(s, invite).state, Apply(s, invite).reply.id;
    assert IsPending(t.invitations[k], invite.tenant, invite.email);
    assert FindPending(t.invitations, invite.tenant, invite.email) == Some(k);
  }

  lemma OnlyPending(rows: seq<Invitation>, tenant: string, email: string, k: nat)
    requires OnePendingPerEmail(rows) && k < |rows| && IsPending(rows[k], tenant, email)
    ensures FindPending(rows, tenant, email) == Some(k)
  {
    hide FindPending;
    assert FindPending(rows, tenant, email).Some?;
  }

  /**
   Inviting again does not renew a deadline: after an invitation is answered, the invited
   newcomer's login comes too late exactly when an earlier invitation was still pending
   and its own deadline has passed, or there was none and seven days have.
   */
  lemma ReinvitingKeepsTheOldDeadline(s: State, invite: Op, login: Op)
    requires Inv(s) && invite.InviteUser? && login.Login? && Apply(s, invite).reply.Row?
    requires login.tenant == invite.tenant && login.email == invite.email
    requires !HasUser(s.users, invite.tenant, invite.email)
    requires ProviderEnabled(InForce(s, login.tenant), login.provider)
    requires IsAddress(login.email) && OnTheList(InForce(s, login.tenant), login.email)
    ensures Apply(Apply(s, invite).state, login).reply == Refused(InvitationExpired) <==>
              if HasPending(s.invitations, invite.tenant, invite.email) then
                exists k :: 0 <= k < |s.invitations| && Awaits(s.invitations[k], invite.tenant, invite.email)
                            && PastDeadline(s.invitations[k], login.now)
              else invite.now + 7 * 24 * 60 * 60 < login.now
  {
    assert WellFormed(login.email);
    ListIsExact(InForce(s, login.tenant), login.email);
    hide FindUser, FindPending, WellFormed, AllowedByPolicy, Domain, HasUsers, InvitedBy, OnTheList;
    InviteLeavesItPending(s, invite);
    assert FindUser(s.users, invite.tenant, invite.email).None?;
    if k :| 0 <= k < |s.invitations| && Awaits(s.invitations[k], invite.tenant, invite.email) {
      OnlyPending(s.invitations, invite.tenant, invite.email, k);
    }
  }
}
