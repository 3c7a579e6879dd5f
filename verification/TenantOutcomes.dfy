/**
 What one administrative request does to a tenant's tables, and what the logins after it
 get (app/services/tenant_admin_service.py:295-413, 474-594).
 */
module TenantOutcomes {
  import opened Common
  import opened TenantAccess
  import opened TenantGuarantees

  // ---- Users ---------------------------------------------------------------------------------------------------

  /** A user is added, and nothing else changes, exactly when the request is sound and the e-mail is free. */
  lemma CreateOutcome(s: State, op: Op)
    requires op.CreateUser?
    ensures var t, reply := Apply(s, op).state, Apply(s, op).reply;
            var free := !HasUser(s.users, op.tenant, op.email);
            && (reply.Row? <==> IsAddress(op.email) && free && op.role.Some? && op.status.Some?)
            && (reply.Row? ==>
                  && reply.id == |s.users|
                  && t == s.(users := s.users + [User(op.tenant, op.email, op.name, op.role.value, op.status.value,
                                                      OtherProvider("manual"), None)]))
            && (!reply.Row? ==> t == s)
            && (reply == Failed(InvalidEmail) <==> !IsAddress(op.email))
            && (reply == Failed(UserExists) <==> IsAddress(op.email) && !free)
            && (reply == Failed(InvalidRole) <==> IsAddress(op.email) && free && op.role.None?)
  {
    hide FindUser;
    assert WellFormed(op.email) <==> IsAddress(op.email);
    assert FindUser(s.users, op.tenant, op.email).Some? <==> HasUser(s.users, op.tenant, op.email);
  }

  ghost predicate RemovesTheLastOwner(s: State, op: Op)
    requires op.UpdateUser? && op.id < |s.users|
  {
    var u := s.users[op.id];
    && u.role == Owner
    && !(op.newRole in {Keep, To(Owner)}
         && (op.newStatus == To(Active) || (op.newStatus == Keep && u.status == Active)))
    && !exists k :: 0 <= k < |s.users| && k != op.id && s.users[k].tenantId == u.tenantId
                    && s.users[k].role == Owner && s.users[k].status == Active
  }

  /** An update sets what it names on the tenant's own user and on no other row, unless it removes the last owner. */
  lemma UpdateOutcome(s: State, op: Op)
    requires op.UpdateUser?
    ensures var t, reply := Apply(s, op).state, Apply(s, op).reply;
            var known := op.id < |s.users| && s.users[op.id].tenantId == op.tenant;
            && (reply == Failed(UserNotFound) <==> !known)
            && (reply == Failed(InvalidRole) <==> known && op.newRole.Unknown?)
            && (reply == Failed(InvalidStatus) <==> known && !op.newRole.Unknown? && op.newStatus.Unknown?)
            && (reply == Failed(LastOwner) <==>
                  known && !op.newRole.Unknown? && !op.newStatus.Unknown? && RemovesTheLastOwner(s, op))
            && (reply.Failed? ==> t == s)
            && (!reply.Failed? ==>
                  && reply == Row(op.id) && t == s.(users := t.users) && t.users == s.users[op.id := t.users[op.id]]
                  && var before, after := s.users[op.id], t.users[op.id];
                  && (op.newName.Some? ==> after.name == op.newName.value)
                  && (op.newRole.To? ==> after.role == op.newRole.value)
                  && (op.newStatus.To? ==> after.status == op.newStatus.value)
                  && after == before.(name := if op.newName.None? then before.name else after.name,
                                      role := if op.newRole.Keep? then before.role else after.role,
                                      status := if op.newStatus.Keep? then before.status else after.status))
  {
  }

  /** Whoever is disabled is refused at once, by every enabled provider and whatever was listed or pending. */
  lemma DisablingShutsOut(s: State, op: Op, login: Op)
    requires Inv(s) && op.UpdateUser? && op.newStatus == To(Disabled) && Apply(s, op).reply.Row?
    requires login.Login? && login.tenant == op.tenant && login.email == s.users[op.id].email
    requires IsAddress(login.email) && ProviderEnabled(InForce(s, op.tenant), login.provider)
    requires OnTheList(InForce(s, op.tenant), login.email)
    ensures Apply(Apply(s, op).state, login).reply == Refused(UserDisabled)
  {
    var t := Apply(s, op).state;
    UpdateOutcome(s, op);
    RunKeepsInv(s, [op]);
    assert t.users[op.id].status == Disabled && t.users[op.id].email == login.email;
    assert Run(s, [op]) == t by {
      assert [op][1..] == [];
    }
    hide OnTheList, ProviderEnabled, Apply, Inv;
    RefusedLoginIff(t, login);
  }

  // ---- Invitations ---------------------------------------------------------------------------------------------

  /** An invitation is renewed in place or added for seven days, unless the e-mail has a user who may log in. */
  lemma InviteOutcome(s: State, op: Op)
    requires Inv(s) && op.InviteUser?
    ensures var t, reply := Apply(s, op).state, Apply(s, op).reply;
            var taken := exists k :: 0 <= k < |s.users| && s.users[k].tenantId == op.tenant
                                     && s.users[k].email == op.email && s.users[k].status != Disabled;
            && (reply == Failed(InvalidEmail) <==> !IsAddress(op.email))
            && (reply == Failed(InvalidRole) <==> IsAddress(op.email) && op.role.None?)
            && (reply == Failed(UserExists) <==> IsAddress(op.email) && op.role.Some? && taken)
            && (reply.Row? <==> IsAddress(op.email) && op.role.Some? && !taken)
            && (!reply.Row? ==> t == s)
            && (reply.Row? ==>
                  var rows, k := s.invitations, reply.id;
                  && t == s.(invitations := t.invitations)
                  && if HasPending(rows, op.tenant, op.email) then
                       && k < |rows| && Awaits(rows[k], op.tenant, op.email)
                       && t.invitations
                          == rows[k := rows[k].(role := op.role.value,
                                                invitedBy := if Truthy(op.invitedBy) then op.invitedBy
                                                             else rows[k].invitedBy)]
                     else
                       && k == |rows|
                       && t.invitations == rows + [Invitation(op.tenant, op.email, op.role.value, Pending, op.invitedBy,
                                                              None, Some(op.now + 7 * 24 * 60 * 60))])
  {
    var user := FindUser(s.users, op.tenant, op.email);
    var pending := FindPending(s.invitations, op.tenant, op.email);
    hide FindUser, FindPending;
    assert WellFormed(op.email) <==> IsAddress(op.email);
    assert pending.Some? <==> HasPending(s.invitations, op.tenant, op.email);
    if user.Some? {
      assert IsUser(s.users[user.value], op.tenant, op.email);
    }
  }

  /** Only the tenant's own pending invitation is revoked, and nothing else changes. */
  lemma RevokeOutcome(s: State, op: Op)
    requires op.RevokeInvitation?
    ensures var t, reply := Apply(s, op).state, Apply(s, op).reply;
            var known := op.id < |s.invitations| && s.invitations[op.id].tenantId == op.tenant;
            && reply == (if known then Row(op.id) else Failed(InvitationNotFound))
            && t == if known && s.invitations[op.id].status == Pending
                    then s.(invitations := s.invitations[op.id := s.invitations[op.id].(status := Revoked)])
                    else s
  {
  }

  lemma OneStep(s: State, op: Op)
    requires Inv(s)
    ensures Inv(Apply(s, op).state)
  {
    RunKeepsInv(s, [op]);
    assert [op][1..] == [];
    assert Run(s, [op]) == Apply(s, op).state;
  }

  /** An invited newcomer who logs in within the deadline joins with the role last offered. */
  lemma InvitedNewcomersJoin(s: State, invite: Op, login: Op)
    requires Inv(s) && invite.InviteUser? && Apply(s, invite).reply.Row? && login.Login?
    requires login.tenant == invite.tenant && login.email == invite.email
    requires !HasUser(s.users, invite.tenant, invite.email)
    requires ProviderEnabled(InForce(s, login.tenant), login.provider)
    requires OnTheList(InForce(s, login.tenant), login.email)
    requires !PastDeadline(Apply(s, invite).state.invitations[Apply(s, invite).reply.id], login.now)
    ensures var t := Apply(Apply(s, invite).state, login).state;
            && Apply(Apply(s, invite).state, login).reply == Row(|s.users|)
            && t.users == s.users + [User(login.tenant, login.email, login.name, invite.role.value, Active,
                                          login.provider, Some(login.now))]
            && t.invitations[Apply(s, invite).reply.id].status == Accepted
  {
    var s1, k := Apply(s, invite).state, Apply(s, invite).reply.id;
    InviteOutcome(s, invite);
    OneStep(s, invite);
    assert Awaits(s1.invitations[k], login.tenant, login.email);
    assert forall j :: 0 <= j < |s1.invitations| && Awaits(s1.invitations[j], login.tenant, login.email) ==> j == k;
    assert InForce(s1, login.tenant) == InForce(s, login.tenant);
    assert !HasUser(s1.users, login.tenant, login.email);
    hide OnTheList, ProviderEnabled, Apply, Inv;
    LoginAdmitsIff(s1, login);
    AdmittedUser(s1, login);
  }

  /** A revoked newcomer is turned away unless the tenant is empty or provisions anyone. */
  lemma RevokedNewcomersAreRefused(s: State, revoke: Op, login: Op)
    requires Inv(s) && revoke.RevokeInvitation? && login.Login? && IsAddress(login.email)
    requires revoke.id < |s.invitations| && Awaits(s.invitations[revoke.id], revoke.tenant, login.email)
    requires login.tenant == revoke.tenant && !HasUser(s.users, login.tenant, login.email)
    requires ProviderEnabled(InForce(s, login.tenant), login.provider)
    requires OnTheList(InForce(s, login.tenant), login.email)
    ensures Apply(Apply(s, revoke).state, login).reply == Refused(UserNotInvited) <==>
              HasAnyUser(s.users, login.tenant) && !InForce(s, login.tenant).autoProvision
  {
    var t := Apply(s, revoke).state;
    RevokeOutcome(s, revoke);
    OneStep(s, revoke);
    assert !HasPending(t.invitations, login.tenant, login.email);
    hide OnTheList, ProviderEnabled, Apply, Inv;
    RefusedLoginIff(t, login);
  }

  // ---- The login policy ----------------------------------------------------------------------------------------

  /** A policy change is saved exactly when its e-mails and role are sound, and overwrites what it names. */
  lemma PolicyOutcome(s: State, op: Op)
    requires op.UpdatePolicy?
    ensures var t, reply, c, before := Apply(s, op).state, Apply(s, op).reply, op.changes, InForce(s, op.tenant);
            var badEmail := c.emails.Some? && exists e :: e in c.emails.value && !IsAddress(e);
            && (reply == Failed(InvalidEmail) <==> badEmail)
            && (reply == Failed(InvalidRole) <==> !badEmail && c.defaultRole in {Unknown, To(Owner)})
            && (reply.Failed? ==> t == s)
            && (!reply.Failed? ==>
                  && reply == PolicySaved && t == s.(policies := s.policies[op.tenant := InForce(t, op.tenant)])
                  && var after := InForce(t, op.tenant);
                  && (if c.google.Some? then after.googleEnabled == c.google.value
                      else after.googleEnabled == before.googleEnabled)
                  && (if c.password.Some? then after.passwordEnabled == c.password.value
                      else after.passwordEnabled == before.passwordEnabled)
                  && (forall d :: d in after.domains <==>
                       if c.domains.Some? then d in c.domains.value && d != "" else d in before.domains)
                  && (forall e :: e in after.emails <==>
                       if c.emails.Some? then e in c.emails.value else e in before.emails)
                  && (if c.autoProvision.Some? then after.autoProvision == c.autoProvision.value
                      else after.autoProvision == before.autoProvision)
                  && (if c.defaultRole.To? then after.defaultRole == c.defaultRole.value
                      else after.defaultRole == before.defaultRole))
  {
    assert forall e :: WellFormed(e) <==> IsAddress(e);
  }

  ghost predicate NamedBy(domains: seq<string>, emails: seq<string>, email: string) {
    || email in emails
    || exists k :: 0 <= k < |email| && email[k] == '@' && '@' !in email[..k] && email[k + 1..] in domains
  }

  /** Once lists are saved, an enabled provider's login is barred exactly when some entry is there and none names it. */
  lemma SavedListsBar(s: State, op: Op, login: Op)
    requires Inv(s) && op.UpdatePolicy? && Apply(s, op).reply == PolicySaved
    requires op.changes.domains.Some? && op.changes.emails.Some? && "" !in op.changes.domains.value
    requires login.Login? && login.tenant == op.tenant && IsAddress(login.email)
    requires ProviderEnabled(InForce(Apply(s, op).state, op.tenant), login.provider)
    ensures var domains, emails := op.changes.domains.value, op.changes.emails.value;
            Apply(Apply(s, op).state, login).reply == Refused(EmailNotAllowed) <==>
              (domains != [] || emails != []) && !NamedBy(domains, emails, login.email)
  {
    var t, domains, emails := Apply(s, op).state, op.changes.domains.value, op.changes.emails.value;
    PolicyOutcome(s, op);
    OneStep(s, op);
    var p := InForce(t, op.tenant);
    assert p.domains == {} <==> domains == [] by {
      assert domains != [] ==> domains[0] in p.domains;
    }
    assert p.emails == {} <==> emails == [] by {
      assert emails != [] ==> emails[0] in p.emails;
    }
    hide Apply, Inv, ProviderEnabled;
    RefusedLoginIff(t, login);
  }
}
